/**
 Copying a part of a graph: a selection is saved as text and loaded again under new names.  The saved connections are
 grouped by their source on the way.
 */
module Pasting {
  import opened OldNames
  import opened TokenStates
  import opened Uuid
  import opened UuidProvider

  /** A port's id is its name beneath the id of its node. */
  datatype Port = Port(name: string, isOutput: bool)

  datatype Node = Node(id: Id, kind: string, ports: seq<Port>)

  datatype Link = Link(from: Id, to: Id, active: bool)

  datatype Graph = Graph(nodes: seq<Node>, links: seq<Link>)

  /** What is saved of a node, and of the connections of one source. */
  datatype SavedNode = SavedNode(uuid: string, kind: string, ports: seq<Port>)

  datatype Entry = Entry(uuid: string, targets: seq<string>, active: seq<bool>)

  datatype Snippet = Snippet(nodes: seq<SavedNode>, connections: seq<Entry>)

  function PortId(node: Id, port: Port): Id {
    [port.name] + node
  }

  // ---------------------------------------------------------------- counting

  function Times(ls: seq<Link>, n: nat, x: Link): nat
    requires n <= |ls|
  {
    if n == 0 then 0 else if ls[n - 1] == x then Times(ls, n - 1, x) + 1 else Times(ls, n - 1, x)
  }

  lemma {:induction false} TimesPrefix(a: seq<Link>, b: seq<Link>, n: nat, x: Link)
    requires n <= |a|
    ensures Times(a + b, n, x) == Times(a, n, x)
  {
    if n > 0 {
      TimesPrefix(a, b, n - 1, x);
    }
  }

  lemma {:induction false} TimesConcat(a: seq<Link>, b: seq<Link>, n: nat, x: Link)
    requires n <= |b|
    ensures Times(a + b, |a| + n, x) == Times(a, |a|, x) + Times(b, n, x)
  {
    if n == 0 {
      TimesPrefix(a, b, |a|, x);
    } else {
      TimesConcat(a, b, n - 1, x);
    }
  }

  lemma TimesSum(a: seq<Link>, b: seq<Link>, x: Link)
    ensures Times(a + b, |a + b|, x) == Times(a, |a|, x) + Times(b, |b|, x)
  {
    TimesConcat(a, b, |b|, x);
  }

  lemma {:induction false} TimesHas(ls: seq<Link>, n: nat, x: Link)
    requires n <= |ls|
    ensures Times(ls, n, x) > 0 <==> x in ls[..n]
  {
    if n > 0 {
      TimesHas(ls, n - 1, x);
      assert ls[..n] == ls[..n - 1] + [ls[n - 1]];
    }
  }

  // ---------------------------------------------------------------- saving

  predicate Inside(l: Link, selected: set<Id>) {
    Parent(l.from) in selected && Parent(l.to) in selected
  }

  /** Among the first n connections, those from one port into the selection. */
  function FromPort(g: Graph, from: Id, selected: set<Id>, n: nat): seq<Link>
    requires n <= |g.links|
  {
    if n == 0 then []
    else if g.links[n - 1].from == from && Parent(g.links[n - 1].to) in selected
    then FromPort(g, from, selected, n - 1) + [g.links[n - 1]]
    else FromPort(g, from, selected, n - 1)
  }

  /** From the first m ports of a node. */
  function FromNode(g: Graph, node: Node, selected: set<Id>, m: nat): seq<Link>
    requires m <= |node.ports|
  {
    if m == 0 then []
    else if node.ports[m - 1].isOutput
    then FromNode(g, node, selected, m - 1) + FromPort(g, PortId(node.id, node.ports[m - 1]), selected, |g.links|)
    else FromNode(g, node, selected, m - 1)
  }

  function FromNodes(g: Graph, nodes: seq<Node>, selected: set<Id>, n: nat): seq<Link>
    requires n <= |nodes|
  {
    if n == 0 then []
    else FromNodes(g, nodes, selected, n - 1) + FromNode(g, nodes[n - 1], selected, |nodes[n - 1].ports|)
  }

  lemma {:induction false} FromPortTimes(g: Graph, from: Id, selected: set<Id>, n: nat, x: Link)
    requires n <= |g.links|
    ensures var ls := FromPort(g, from, selected, n);
            Times(ls, |ls|, x) == if x.from == from && Parent(x.to) in selected then Times(g.links, n, x) else 0
  {
    if n > 0 {
      FromPortTimes(g, from, selected, n - 1, x);
      TimesSum(FromPort(g, from, selected, n - 1), [g.links[n - 1]], x);
      assert Times([g.links[n - 1]], 1, x) == if g.links[n - 1] == x then 1 else 0;
    }
  }

  /** One of the first m ports has this id and direction. */
  predicate Has(node: Node, m: nat, id: Id, output: bool)
    requires m <= |node.ports|
  {
    m > 0 && ((node.ports[m - 1].isOutput == output && PortId(node.id, node.ports[m - 1]) == id) || Has(node, m - 1, id, output))
  }

  ghost predicate PortsDiffer(node: Node) {
    forall i, j | 0 <= i < j < |node.ports| :: node.ports[i].name != node.ports[j].name
  }

  lemma {:induction false} HasOnce(node: Node, m: nat, k: nat, output: bool)
    requires m <= k < |node.ports| && PortsDiffer(node)
    ensures !Has(node, m, PortId(node.id, node.ports[k]), output)
  {
    if m > 0 {
      HasOnce(node, m - 1, k, output);
      assert PortId(node.id, node.ports[k])[0] == node.ports[k].name;
      assert PortId(node.id, node.ports[m - 1])[0] == node.ports[m - 1].name;
    }
  }

  lemma {:induction false} HasParent(node: Node, m: nat, id: Id, output: bool)
    requires m <= |node.ports| && Has(node, m, id, output)
    ensures id != [] && Parent(id) == node.id
  {
    if node.ports[m - 1].isOutput == output && PortId(node.id, node.ports[m - 1]) == id {
      assert Parent(id) == node.id;
    } else {
      HasParent(node, m - 1, id, output);
    }
  }

  lemma {:induction false} FromNodeTimes(g: Graph, node: Node, selected: set<Id>, m: nat, x: Link)
    requires m <= |node.ports| && PortsDiffer(node)
    ensures var ls := FromNode(g, node, selected, m);
            Times(ls, |ls|, x) ==
            if Has(node, m, x.from, true) && Parent(x.to) in selected then Times(g.links, |g.links|, x) else 0
  {
    if m > 0 {
      FromNodeTimes(g, node, selected, m - 1, x);
      var from := PortId(node.id, node.ports[m - 1]);
      FromPortTimes(g, from, selected, |g.links|, x);
      TimesSum(FromNode(g, node, selected, m - 1), FromPort(g, from, selected, |g.links|), x);
      HasOnce(node, m - 1, m - 1, true);
    }
  }

  predicate HasPort(nodes: seq<Node>, n: nat, id: Id, output: bool)
    requires n <= |nodes|
  {
    n > 0 && (Has(nodes[n - 1], |nodes[n - 1].ports|, id, output) || HasPort(nodes, n - 1, id, output))
  }

  ghost predicate NodesDiffer(nodes: seq<Node>) {
    forall i, j | 0 <= i < j < |nodes| :: nodes[i].id != nodes[j].id
  }

  lemma {:induction false} HasPortOnce(nodes: seq<Node>, n: nat, k: nat, id: Id, output: bool)
    requires n <= k < |nodes| && NodesDiffer(nodes) && Parent(id) == nodes[k].id
    ensures !HasPort(nodes, n, id, output)
  {
    if n > 0 {
      HasPortOnce(nodes, n - 1, k, id, output);
      if Has(nodes[n - 1], |nodes[n - 1].ports|, id, output) {
        HasParent(nodes[n - 1], |nodes[n - 1].ports|, id, output);
      }
    }
  }

  /** Each connection is saved as often as it exists. */
  lemma {:induction false} FromNodesTimes(g: Graph, nodes: seq<Node>, selected: set<Id>, n: nat, x: Link)
    requires n <= |nodes| && NodesDiffer(nodes) && forall k | 0 <= k < |nodes| :: PortsDiffer(nodes[k])
    ensures var ls := FromNodes(g, nodes, selected, n);
            Times(ls, |ls|, x) ==
            if HasPort(nodes, n, x.from, true) && Parent(x.to) in selected then Times(g.links, |g.links|, x) else 0
  {
    if n > 0 {
      var node := nodes[n - 1];
      FromNodesTimes(g, nodes, selected, n - 1, x);
      FromNodeTimes(g, node, selected, |node.ports|, x);
      TimesSum(FromNodes(g, nodes, selected, n - 1), FromNode(g, node, selected, |node.ports|), x);
      if Has(node, |node.ports|, x.from, true) {
        HasParent(node, |node.ports|, x.from, true);
        HasPortOnce(nodes, n - 1, n - 1, x.from, true);
      }
    }
  }

  // ---------------------------------------------------------------- grouping by source

  datatype Line = Line(from: string, to: string, active: bool)

  function LineOf(l: Link): Line {
    Line(Print(l.from), Print(l.to), l.active)
  }

  ghost predicate Even(es: seq<Entry>) {
    forall k | 0 <= k < |es| :: |es[k].targets| == |es[k].active|
  }

  /** Where among the first n entries the one of this source is. */
  function Place(es: seq<Entry>, n: nat, from: string): Option<nat>
    requires n <= |es|
    ensures Place(es, n, from).Some? ==> Place(es, n, from).value < n && es[Place(es, n, from).value].uuid == from
  {
    if n == 0 then None else if es[n - 1].uuid == from then Some(n - 1) else Place(es, n - 1, from)
  }

  function Extended(e: Entry, l: Line): Entry {
    Entry(e.uuid, e.targets + [l.to], e.active + [l.active])
  }

  function Pushed(es: seq<Entry>, l: Line): seq<Entry> {
    var p := Place(es, |es|, l.from);
    if p.Some? then es[p.value := Extended(es[p.value], l)] else es + [Entry(l.from, [l.to], [l.active])]
  }

  function Grouped(ls: seq<Link>, n: nat): seq<Entry>
    requires n <= |ls|
  {
    if n == 0 then [] else Pushed(Grouped(ls, n - 1), LineOf(ls[n - 1]))
  }

  lemma {:induction false} GroupedEven(ls: seq<Link>, n: nat)
    requires n <= |ls|
    ensures Even(Grouped(ls, n))
  {
    if n > 0 {
      GroupedEven(ls, n - 1);
    }
  }

  /** The connections that the lines of one entry are loaded as. */
  function LoadedEntry(read: Line -> Option<Link>, e: Entry, m: nat): seq<Link>
    requires m <= |e.targets| == |e.active|
  {
    if m == 0 then []
    else
      var l := read(Line(e.uuid, e.targets[m - 1], e.active[m - 1]));
      if l.Some? then LoadedEntry(read, e, m - 1) + [l.value] else LoadedEntry(read, e, m - 1)
  }

  function Loaded(read: Line -> Option<Link>, es: seq<Entry>, n: nat): seq<Link>
    requires n <= |es| && Even(es)
  {
    if n == 0 then [] else Loaded(read, es, n - 1) + LoadedEntry(read, es[n - 1], |es[n - 1].targets|)
  }

  /** How many of the first n connections are loaded as x. */
  function Matches(read: Line -> Option<Link>, ls: seq<Link>, n: nat, x: Link): nat
    requires n <= |ls|
  {
    if n == 0 then 0
    else if read(LineOf(ls[n - 1])) == Some(x) then Matches(read, ls, n - 1, x) + 1
    else Matches(read, ls, n - 1, x)
  }

  lemma TimesMore(ls: seq<Link>, l: Link, x: Link)
    ensures Times(ls + [l], |ls + [l]|, x) == if l == x then Times(ls, |ls|, x) + 1 else Times(ls, |ls|, x)
  {
    TimesPrefix(ls, [l], |ls|, x);
  }

  lemma {:induction false} EntryPrefix(read: Line -> Option<Link>, e: Entry, l: Line, m: nat)
    requires m <= |e.targets| == |e.active|
    ensures LoadedEntry(read, Extended(e, l), m) == LoadedEntry(read, e, m)
  {
    if m > 0 {
      EntryPrefix(read, e, l, m - 1);
    }
  }

  /** How often x is among what the first n entries, or one entry, are loaded as. */
  function TimesLoaded(read: Line -> Option<Link>, es: seq<Entry>, n: nat, x: Link): nat
    requires n <= |es| && Even(es)
  {
    Times(Loaded(read, es, n), |Loaded(read, es, n)|, x)
  }

  function TimesOf(read: Line -> Option<Link>, e: Entry, x: Link): nat
    requires |e.targets| == |e.active|
  {
    var own := LoadedEntry(read, e, |e.targets|);
    Times(own, |own|, x)
  }

  lemma EntryMore(read: Line -> Option<Link>, e: Entry, l: Line, x: Link)
    requires |e.targets| == |e.active| && l.from == e.uuid
    ensures TimesOf(read, Extended(e, l), x) == TimesOf(read, e, x) + if read(l) == Some(x) then 1 else 0
  {
    EntryPrefix(read, e, l, |e.targets|);
    assert Line(e.uuid, Extended(e, l).targets[|e.targets|], Extended(e, l).active[|e.targets|]) == l;
    if read(l).Some? {
      TimesMore(LoadedEntry(read, e, |e.targets|), read(l).value, x);
    }
  }

  lemma LoadedStep(read: Line -> Option<Link>, es: seq<Entry>, n: nat, x: Link)
    requires n < |es| && Even(es)
    ensures TimesLoaded(read, es, n + 1, x) == TimesLoaded(read, es, n, x) + TimesOf(read, es[n], x)
  {
    TimesSum(Loaded(read, es, n), LoadedEntry(read, es[n], |es[n].targets|), x);
  }

  lemma {:induction false} UpdatedTimes(read: Line -> Option<Link>, es: seq<Entry>, p: nat, l: Line, n: nat, x: Link)
    requires n <= |es| && p < |es| && Even(es) && es[p].uuid == l.from
    ensures var updated := es[p := Extended(es[p], l)];
            Even(updated) && TimesLoaded(read, updated, n, x) ==
            TimesLoaded(read, es, n, x) + if p < n && read(l) == Some(x) then 1 else 0
  {
    var updated := es[p := Extended(es[p], l)];
    if n > 0 {
      var k := n - 1;
      UpdatedTimes(read, es, p, l, k, x);
      LoadedStep(read, es, k, x);
      LoadedStep(read, updated, k, x);
      EntryMore(read, es[p], l, x);
      assert updated[k] == if k == p then Extended(es[p], l) else es[k];
    }
  }

  lemma {:induction false} LoadedPrefix(read: Line -> Option<Link>, es: seq<Entry>, e: Entry, n: nat)
    requires n <= |es| && Even(es) && Even(es + [e])
    ensures Loaded(read, es + [e], n) == Loaded(read, es, n)
  {
    if n > 0 {
      LoadedPrefix(read, es, e, n - 1);
    }
  }

  lemma PushedTimes(read: Line -> Option<Link>, es: seq<Entry>, l: Line, x: Link)
    requires Even(es)
    ensures Even(Pushed(es, l))
    ensures TimesLoaded(read, Pushed(es, l), |Pushed(es, l)|, x) ==
            TimesLoaded(read, es, |es|, x) + if read(l) == Some(x) then 1 else 0
  {
    var p := Place(es, |es|, l.from);
    if p.Some? {
      UpdatedTimes(read, es, p.value, l, |es|, x);
    } else {
      var none := Entry(l.from, [], []);
      assert Extended(none, l) == Entry(l.from, [l.to], [l.active]);
      LoadedPrefix(read, es, Extended(none, l), |es|);
      EntryMore(read, none, l, x);
      assert LoadedEntry(read, none, 0) == [];
      LoadedStep(read, es + [Extended(none, l)], |es|, x);
    }
  }

  /** Whatever the lines are read as, grouping neither loses nor repeats any. */
  lemma {:induction false} GroupedTimes(read: Line -> Option<Link>, ls: seq<Link>, n: nat, x: Link)
    requires n <= |ls|
    ensures Even(Grouped(ls, n))
    ensures var loaded := Loaded(read, Grouped(ls, n), |Grouped(ls, n)|);
            Times(loaded, |loaded|, x) == Matches(read, ls, n, x)
  {
    if n > 0 {
      GroupedTimes(read, ls, n - 1, x);
      PushedTimes(read, Grouped(ls, n - 1), LineOf(ls[n - 1]), x);
    }
  }

  // ---------------------------------------------------------------- loading

  function ReadNode(mapping: map<Id, Id>, w: string): Id {
    if Parsed(w) in mapping then mapping[Parsed(w)] else Parsed(w)
  }

  function ReadConnector(mapping: map<Id, Id>, w: string): Id {
    var id := Parsed(Upgraded(w));
    if id != [] && Parent(id) in mapping then Derived(mapping[Parent(id)], Print([id[0]])) else id
  }

  /** A line is a connection if both ports exist; otherwise it is left out. */
  function ReadLine(mapping: map<Id, Id>, nodes: seq<Node>, l: Line): Option<Link> {
    var from, to := ReadConnector(mapping, l.from), ReadConnector(mapping, l.to);
    if HasPort(nodes, |nodes|, from, true) && HasPort(nodes, |nodes|, to, false) then Some(Link(from, to, l.active)) else None
  }

  function Reader(mapping: map<Id, Id>, nodes: seq<Node>): Line -> Option<Link> {
    l => ReadLine(mapping, nodes, l)
  }

  function SavedNodes(nodes: seq<Node>, n: nat): (r: seq<SavedNode>)
    requires n <= |nodes|
    ensures |r| == n && forall k | 0 <= k < n :: r[k] == SavedNode(Print(nodes[k].id), nodes[k].kind, nodes[k].ports)
  {
    if n == 0 then []
    else SavedNodes(nodes, n - 1) + [SavedNode(Print(nodes[n - 1].id), nodes[n - 1].kind, nodes[n - 1].ports)]
  }

  function MappingOf(saved: seq<SavedNode>, ids: seq<Id>, n: nat): map<Id, Id>
    requires n <= |saved| && n <= |ids|
  {
    if n == 0 then map[] else MappingOf(saved, ids, n - 1)[Parsed(saved[n - 1].uuid) := ids[n - 1]]
  }

  function Copies(saved: seq<SavedNode>, mapping: map<Id, Id>, n: nat): (r: seq<Node>)
    requires n <= |saved|
    ensures |r| == n && forall k | 0 <= k < n :: r[k] == Node(ReadNode(mapping, saved[k].uuid), saved[k].kind, saved[k].ports)
  {
    if n == 0 then []
    else
      Copies(saved, mapping, n - 1) + [Node(ReadNode(mapping, saved[n - 1].uuid), saved[n - 1].kind, saved[n - 1].ports)]
  }

  /** The graph after loading with the given new ids. */
  function LoadedGraph(h: Graph, s: Snippet, ids: seq<Id>): Graph
    requires |ids| == |s.nodes| && Even(s.connections)
  {
    var mapping := MappingOf(s.nodes, ids, |ids|);
    var nodes := h.nodes + Copies(s.nodes, mapping, |s.nodes|);
    Graph(nodes, h.links + Loaded(Reader(mapping, nodes), s.connections, |s.connections|))
  }

  function SavedGraph(g: Graph, nodes: seq<Node>, selected: set<Id>): Snippet {
    var links := FromNodes(g, nodes, selected, |nodes|);
    Snippet(SavedNodes(nodes, |nodes|), Grouped(links, |links|))
  }

  // ---------------------------------------------------------------- names that survive

  /** No component contains a bar or a tilde or is empty, and none beneath the first begins like an old name. */
  ghost predicate PlainNode(node: Node) {
    && PlainId(node.id) && PlainText(node.kind) && (forall p :: !LegacyAt(Print(node.id), p))
    && forall k | 0 <= k < |node.ports| :: PlainText(node.ports[k].name)
  }

  // ---------------------------------------------------------------- the copy

  ghost predicate WellFormed(g: Graph) {
    && NodesDiffer(g.nodes)
    && (forall k | 0 <= k < |g.nodes| :: PortsDiffer(g.nodes[k]) && PlainNode(g.nodes[k]))
    && forall l | l in g.links :: HasPort(g.nodes, |g.nodes|, l.from, true) && HasPort(g.nodes, |g.nodes|, l.to, false)
  }

  ghost predicate Selects(g: Graph, nodes: seq<Node>, selected: set<Id>) {
    && NodesDiffer(nodes)
    && (forall k | 0 <= k < |nodes| :: nodes[k] in g.nodes && nodes[k].id in selected)
    && forall u | u in selected :: exists k :: 0 <= k < |nodes| && nodes[k].id == u
  }

  /** New ids: plain, different from each other and from those of the graph. */
  ghost predicate NewIds(h: Graph, ids: seq<Id>) {
    && (forall k | 0 <= k < |ids| :: PlainId(ids[k]))
    && (forall i, j | 0 <= i < j < |ids| :: ids[i] != ids[j])
    && forall i, k | 0 <= i < |h.nodes| && 0 <= k < |ids| :: h.nodes[i].id != ids[k]
  }

  /** The port of the copy that belongs to a port of a selected node. */
  function NewPort(mapping: map<Id, Id>, id: Id): Id {
    if id != [] && Parent(id) in mapping then [id[0]] + mapping[Parent(id)] else id
  }

  function Renamed(mapping: map<Id, Id>, l: Link): Link {
    Link(NewPort(mapping, l.from), NewPort(mapping, l.to), l.active)
  }

  predicate OldName(id: Id) {
    id != [] && OLD <= id[0]
  }

  /** The port of the same node that the text of a port names. */
  function CurrentPort(id: Id): Id {
    if id != [] then [CurrentName(id[0])] + Parent(id) else id
  }

  function Current(l: Link): Link {
    Link(CurrentPort(l.from), CurrentPort(l.to), l.active)
  }

  /** The ports that the texts of a connection name exist. */
  predicate Survives(g: Graph, l: Link) {
    HasPort(g.nodes, |g.nodes|, CurrentPort(l.from), true) && HasPort(g.nodes, |g.nodes|, CurrentPort(l.to), false)
  }

  /** What the inner ones of the first n connections are loaded as. */
  function CopiesOf(g: Graph, selected: set<Id>, mapping: map<Id, Id>, n: nat): seq<Link>
    requires n <= |g.links|
  {
    if n == 0 then []
    else if Inside(g.links[n - 1], selected) && Survives(g, g.links[n - 1])
    then CopiesOf(g, selected, mapping, n - 1) + [Renamed(mapping, Current(g.links[n - 1]))]
    else CopiesOf(g, selected, mapping, n - 1)
  }

  /** No inner connection has a port with an old name. */
  predicate AllCurrent(g: Graph, selected: set<Id>) {
    forall l | l in g.links && Inside(l, selected) :: !OldName(l.from) && !OldName(l.to)
  }

  lemma CurrentStays(id: Id)
    requires !OldName(id)
    ensures CurrentPort(id) == id
  {
  }

  lemma CurrentIsNotOld(id: Id)
    ensures !OldName(CurrentPort(id))
  {
    if id != [] && OLD <= id[0] {
      assert CurrentName(id[0])[0] == 'e';
    }
  }

  lemma {:induction false} MappingAt(nodes: seq<Node>, ids: seq<Id>, n: nat, k: nat)
    requires n <= |nodes| == |ids| && NodesDiffer(nodes) && forall i | 0 <= i < |nodes| :: PlainNode(nodes[i])
    requires k < n
    ensures nodes[k].id in MappingOf(SavedNodes(nodes, |nodes|), ids, n)
    ensures MappingOf(SavedNodes(nodes, |nodes|), ids, n)[nodes[k].id] == ids[k]
  {
    PlainParses(nodes[n - 1].id);
    if k < n - 1 {
      MappingAt(nodes, ids, n - 1, k);
    }
  }

  lemma {:induction false} HasPortAt(nodes: seq<Node>, n: nat, k: nat, id: Id, output: bool)
    requires k < n <= |nodes| && Has(nodes[k], |nodes[k].ports|, id, output)
    ensures HasPort(nodes, n, id, output)
  {
    if k < n - 1 {
      HasPortAt(nodes, n - 1, k, id, output);
    }
  }

  lemma {:induction false} HasPortWhere(nodes: seq<Node>, n: nat, id: Id, output: bool) returns (k: nat)
    requires n <= |nodes| && HasPort(nodes, n, id, output)
    ensures k < n && Has(nodes[k], |nodes[k].ports|, id, output)
  {
    if Has(nodes[n - 1], |nodes[n - 1].ports|, id, output) {
      k := n - 1;
    } else {
      k := HasPortWhere(nodes, n - 1, id, output);
    }
  }

  lemma {:induction false} HasNamed(node: Node, m: nat, id: Id, output: bool) returns (k: nat)
    requires m <= |node.ports| && Has(node, m, id, output)
    ensures k < m && id == PortId(node.id, node.ports[k])
  {
    if node.ports[m - 1].isOutput == output && PortId(node.id, node.ports[m - 1]) == id {
      k := m - 1;
    } else {
      k := HasNamed(node, m - 1, id, output);
    }
  }

  lemma {:induction false} HasCopy(node: Node, copy: Node, m: nat, name: string, output: bool)
    requires m <= |node.ports| && copy.ports == node.ports && Has(node, m, [name] + node.id, output)
    ensures Has(copy, m, [name] + copy.id, output)
  {
    if PortId(node.id, node.ports[m - 1]) == [name] + node.id {
      assert ([name] + node.id)[0] == name && PortId(node.id, node.ports[m - 1])[0] == node.ports[m - 1].name;
    }
    if !(node.ports[m - 1].isOutput == output && PortId(node.id, node.ports[m - 1]) == [name] + node.id) {
      HasCopy(node, copy, m - 1, name, output);
    }
  }

  ghost predicate Setting(g: Graph, nodes: seq<Node>, selected: set<Id>, h: Graph, ids: seq<Id>) {
    WellFormed(g) && Selects(g, nodes, selected) && |ids| == |nodes| && NewIds(h, ids)
  }

  /** The new ids of the selected nodes. */
  function NewNames(nodes: seq<Node>, ids: seq<Id>): map<Id, Id>
    requires |ids| == |nodes|
  {
    MappingOf(SavedNodes(nodes, |nodes|), ids, |ids|)
  }

  function NodeCopies(nodes: seq<Node>, ids: seq<Id>): (r: seq<Node>)
    requires |ids| == |nodes|
    ensures |r| == |nodes|
  {
    Copies(SavedNodes(nodes, |nodes|), NewNames(nodes, ids), |nodes|)
  }

  /** The connections that are added by pasting the selection. */
  function Added(g: Graph, nodes: seq<Node>, selected: set<Id>, h: Graph, ids: seq<Id>): seq<Link>
    requires |ids| == |nodes| && Even(SavedGraph(g, nodes, selected).connections)
  {
    var es := SavedGraph(g, nodes, selected).connections;
    Loaded(Reader(NewNames(nodes, ids), h.nodes + NodeCopies(nodes, ids)), es, |es|)
  }

  lemma PortRead(node: Id, copy: Id, name: string)
    requires PlainId(node) && PlainId(copy) && PlainText(name) && forall p :: !LegacyAt(Print(node), p)
    ensures var id := Parsed(Upgraded(Print([name] + node)));
            id == [CurrentName(name)] + node && Parent(id) == node &&
            Derived(copy, Print([id[0]])) == [CurrentName(name)] + copy
  {
    var current := CurrentName(name);
    UpgradedPort(node, name);
    CurrentIsPlain(name);
    PlainPort(current, node);
    PlainParses([current] + node);
    PlainPort(current, copy);
    PlainParses([current] + copy);
    ParentOfDerived(copy, current);
  }

  /** A selected port: its node is copied, and its text is read as the port of the copy with the current name. */
  lemma PortCopied(g: Graph, nodes: seq<Node>, selected: set<Id>, h: Graph, ids: seq<Id>, id: Id, output: bool)
    returns (k: nat)
    requires Setting(g, nodes, selected, h, ids)
    requires HasPort(g.nodes, |g.nodes|, id, output) && Parent(id) in selected
    ensures k < |nodes| && nodes[k].id == Parent(id) && id != []
    ensures Has(nodes[k], |nodes[k].ports|, id, output)
    ensures Parent(id) in NewNames(nodes, ids) && NewNames(nodes, ids)[Parent(id)] == ids[k]
    ensures ReadConnector(NewNames(nodes, ids), Print(id)) == [CurrentName(id[0])] + ids[k]
  {
    var i := HasPortWhere(g.nodes, |g.nodes|, id, output);
    HasParent(g.nodes[i], |g.nodes[i].ports|, id, output);
    k :| 0 <= k < |nodes| && nodes[k].id == Parent(id);
    assert g.nodes[i] == nodes[k];
    var j := HasNamed(nodes[k], |nodes[k].ports|, id, output);
    assert PlainNode(nodes[k]);
    var name := nodes[k].ports[j].name;
    assert id == [name] + nodes[k].id;
    PortRead(nodes[k].id, ids[k], name);
    SelectedPlain(g, nodes, selected);
    MappingAt(nodes, ids, |ids|, k);
  }

  lemma SelectedPlain(g: Graph, nodes: seq<Node>, selected: set<Id>)
    requires WellFormed(g) && Selects(g, nodes, selected)
    ensures forall k | 0 <= k < |nodes| :: PlainNode(nodes[k]) && PortsDiffer(nodes[k])
  {
    forall k | 0 <= k < |nodes| ensures PlainNode(nodes[k]) && PortsDiffer(nodes[k]) {
      assert nodes[k] in g.nodes;
    }
  }

  lemma CopyAt(nodes: seq<Node>, ids: seq<Id>, k: nat)
    requires k < |nodes| == |ids| && NodesDiffer(nodes) && forall i | 0 <= i < |nodes| :: PlainNode(nodes[i])
    ensures NodeCopies(nodes, ids)[k] == Node(ids[k], nodes[k].kind, nodes[k].ports)
  {
    MappingAt(nodes, ids, |ids|, k);
    PlainParses(nodes[k].id);
  }

  lemma CopyHasPort(before: seq<Node>, copies: seq<Node>, k: nat, node: Node, id: Id, output: bool)
    requires k < |copies| && copies[k].ports == node.ports && id != [] && Parent(id) == node.id
    requires Has(node, |node.ports|, id, output)
    ensures HasPort(before + copies, |before + copies|, [id[0]] + copies[k].id, output)
  {
    assert id == [id[0]] + node.id;
    HasCopy(node, copies[k], |node.ports|, id[0], output);
    HasPortAt(before + copies, |before + copies|, |before| + k, [id[0]] + copies[k].id, output);
  }

  lemma {:induction false} HasIndex(before: seq<Node>, copies: seq<Node>, id: Id, output: bool, k: nat)
    requires HasPort(before + copies, |before + copies|, id, output) && k < |copies| && Parent(id) == copies[k].id
    requires forall i | 0 <= i < |before| :: before[i].id != copies[k].id
    requires forall i | 0 <= i < |copies| && i != k :: copies[i].id != copies[k].id
    ensures Has(copies[k], |copies[k].ports|, id, output)
  {
    var all := before + copies;
    var i := HasPortWhere(all, |all|, id, output);
    assert all[i] == if i < |before| then before[i] else copies[i - |before|];
    HasParent(all[i], |all[i].ports|, id, output);
  }

  /** The copy of a node has the ports of the node. */
  lemma SamePorts(g: Graph, nodes: seq<Node>, selected: set<Id>, h: Graph, ids: seq<Id>, k: nat, name: string, output: bool)
    requires Setting(g, nodes, selected, h, ids) && k < |nodes|
    ensures var all := h.nodes + NodeCopies(nodes, ids);
            HasPort(all, |all|, [name] + ids[k], output) <==> HasPort(g.nodes, |g.nodes|, [name] + nodes[k].id, output)
  {
    var copies := NodeCopies(nodes, ids);
    SelectedPlain(g, nodes, selected);
    forall i | 0 <= i < |nodes| ensures copies[i] == Node(ids[i], nodes[i].kind, nodes[i].ports) {
      CopyAt(nodes, ids, i);
    }
    if HasPort(g.nodes, |g.nodes|, [name] + nodes[k].id, output) {
      var i := HasPortWhere(g.nodes, |g.nodes|, [name] + nodes[k].id, output);
      HasParent(g.nodes[i], |g.nodes[i].ports|, [name] + nodes[k].id, output);
      assert g.nodes[i] == nodes[k];
      CopyHasPort(h.nodes, copies, k, nodes[k], [name] + nodes[k].id, output);
    }
    if HasPort(h.nodes + copies, |h.nodes + copies|, [name] + ids[k], output) {
      HasIndex(h.nodes, copies, [name] + ids[k], output, k);
      HasCopy(copies[k], nodes[k], |copies[k].ports|, name, output);
      var i :| 0 <= i < |g.nodes| && g.nodes[i] == nodes[k];
      HasPortAt(g.nodes, |g.nodes|, i, [name] + nodes[k].id, output);
    }
  }

  ghost predicate Renames(mapping: map<Id, Id>, l: Link) {
    l.from != [] && l.to != [] && Parent(l.from) in mapping && Parent(l.to) in mapping
  }

  /** A selected port is read as the port of the copy with the current name, which exists if the node has it. */
  lemma PortLoaded(g: Graph, nodes: seq<Node>, selected: set<Id>, h: Graph, ids: seq<Id>, id: Id, output: bool)
    requires Setting(g, nodes, selected, h, ids)
    requires HasPort(g.nodes, |g.nodes|, id, output) && Parent(id) in selected
    ensures var mapping, all := NewNames(nodes, ids), h.nodes + NodeCopies(nodes, ids);
            && id != [] && Parent(id) in mapping
            && ReadConnector(mapping, Print(id)) == NewPort(mapping, CurrentPort(id))
            && (HasPort(all, |all|, NewPort(mapping, CurrentPort(id)), output)
                <==> HasPort(g.nodes, |g.nodes|, CurrentPort(id), output))
  {
    var k := PortCopied(g, nodes, selected, h, ids, id, output);
    SamePorts(g, nodes, selected, h, ids, k, CurrentName(id[0]), output);
  }

  /** What has been saved of an inner connection is read as the renamed connection between the ports with the current
      names, or as nothing if one of them does not exist. */
  lemma LinkLoaded(g: Graph, nodes: seq<Node>, selected: set<Id>, h: Graph, ids: seq<Id>, l: Link)
    requires Setting(g, nodes, selected, h, ids)
    requires l in g.links && Inside(l, selected)
    ensures var mapping := NewNames(nodes, ids);
            Renames(mapping, l) &&
            Reader(mapping, h.nodes + NodeCopies(nodes, ids))(LineOf(l)) ==
            if Survives(g, l) then Some(Renamed(mapping, Current(l))) else None
  {
    PortLoaded(g, nodes, selected, h, ids, l.from, true);
    PortLoaded(g, nodes, selected, h, ids, l.to, false);
  }

  lemma {:induction false} MappingFrom(saved: seq<SavedNode>, ids: seq<Id>, n: nat, u: Id) returns (k: nat)
    requires n <= |saved| == |ids| && u in MappingOf(saved, ids, n)
    ensures k < n && Parsed(saved[k].uuid) == u && MappingOf(saved, ids, n)[u] == ids[k]
  {
    if Parsed(saved[n - 1].uuid) == u {
      k := n - 1;
    } else {
      k := MappingFrom(saved, ids, n - 1, u);
    }
  }

  lemma SameIndex(ids: seq<Id>, i: nat, j: nat)
    requires i < |ids| && j < |ids| && ids[i] == ids[j] && forall a, b | 0 <= a < b < |ids| :: ids[a] != ids[b]
    ensures i == j
  {
  }

  lemma MappingDiffers(saved: seq<SavedNode>, ids: seq<Id>, mapping: map<Id, Id>, u: Id, v: Id)
    requires |saved| == |ids| && mapping == MappingOf(saved, ids, |ids|)
    requires forall i, j | 0 <= i < j < |ids| :: ids[i] != ids[j]
    requires u in mapping && v in mapping && mapping[u] == mapping[v]
    ensures u == v
  {
    var i := MappingFrom(saved, ids, |ids|, u);
    var j := MappingFrom(saved, ids, |ids|, v);
    SameIndex(ids, i, j);
  }

  lemma SameId(a: Id, b: Id, m: Id, n: Id)
    requires a != [] && b != [] && [a[0]] + m == [b[0]] + n
    ensures a[0] == b[0] && m == n
    ensures Parent(a) == Parent(b) ==> a == b
  {
    assert ([a[0]] + m)[0] == a[0] && ([b[0]] + n)[0] == b[0];
    assert ([a[0]] + m)[1..] == m && ([b[0]] + n)[1..] == n;
    assert a == [a[0]] + Parent(a) && b == [b[0]] + Parent(b);
  }

  lemma RenamedDiffers(nodes: seq<Node>, ids: seq<Id>, a: Link, b: Link)
    requires |nodes| == |ids| && forall i, j | 0 <= i < j < |ids| :: ids[i] != ids[j]
    requires Renames(NewNames(nodes, ids), a) && Renames(NewNames(nodes, ids), b)
    requires Renamed(NewNames(nodes, ids), a) == Renamed(NewNames(nodes, ids), b)
    ensures a == b
  {
    var saved, mapping := SavedNodes(nodes, |nodes|), NewNames(nodes, ids);
    SameId(a.from, b.from, mapping[Parent(a.from)], mapping[Parent(b.from)]);
    SameId(a.to, b.to, mapping[Parent(a.to)], mapping[Parent(b.to)]);
    MappingDiffers(saved, ids, mapping, Parent(a.from), Parent(b.from));
    MappingDiffers(saved, ids, mapping, Parent(a.to), Parent(b.to));
  }

  /** If no other connection is read as x, x is loaded as often as y has been saved. */
  lemma {:induction false} MatchesTimes(read: Line -> Option<Link>, ls: seq<Link>, n: nat, x: Link, y: Link)
    requires n <= |ls| && forall l | l in ls :: read(LineOf(l)) == Some(x) <==> l == y
    ensures Matches(read, ls, n, x) == Times(ls, n, y)
  {
    if n > 0 {
      MatchesTimes(read, ls, n - 1, x, y);
      assert ls[n - 1] in ls;
    }
  }

  lemma {:induction false} MatchesSome(read: Line -> Option<Link>, ls: seq<Link>, n: nat, x: Link) returns (y: Link)
    requires n <= |ls| && Matches(read, ls, n, x) > 0
    ensures y in ls && read(LineOf(y)) == Some(x)
  {
    if read(LineOf(ls[n - 1])) == Some(x) {
      y := ls[n - 1];
    } else {
      y := MatchesSome(read, ls, n - 1, x);
    }
  }

  lemma PortHeld(all: seq<Node>, nodes: seq<Node>, k: nat, id: Id)
    requires NodesDiffer(all) && k < |nodes| && nodes[k] in all && nodes[k].id == Parent(id)
    requires HasPort(all, |all|, id, true)
    ensures HasPort(nodes, |nodes|, id, true)
  {
    var i := HasPortWhere(all, |all|, id, true);
    HasParent(all[i], |all[i].ports|, id, true);
    assert nodes[k] == all[i];
    HasPortAt(nodes, |nodes|, k, id, true);
  }

  /** The output ports of selected nodes are those of the graph that lie in the selection. */
  lemma SelectedPorts(g: Graph, nodes: seq<Node>, selected: set<Id>, id: Id)
    requires WellFormed(g) && Selects(g, nodes, selected)
    ensures HasPort(nodes, |nodes|, id, true) ==> Parent(id) in selected
    ensures HasPort(g.nodes, |g.nodes|, id, true) && Parent(id) in selected ==> HasPort(nodes, |nodes|, id, true)
  {
    if HasPort(nodes, |nodes|, id, true) {
      var k := HasPortWhere(nodes, |nodes|, id, true);
      HasParent(nodes[k], |nodes[k].ports|, id, true);
    } else if HasPort(g.nodes, |g.nodes|, id, true) && Parent(id) in selected {
      var k :| 0 <= k < |nodes| && nodes[k].id == Parent(id);
      PortHeld(g.nodes, nodes, k, id);
    }
  }

  lemma TimesIn(ls: seq<Link>, x: Link)
    ensures Times(ls, |ls|, x) > 0 <==> x in ls
  {
    TimesHas(ls, |ls|, x);
    assert ls[..|ls|] == ls;
  }

  /** What is saved are the inner connections, as often as they exist. */
  lemma SavedInner(g: Graph, nodes: seq<Node>, selected: set<Id>, x: Link)
    requires WellFormed(g) && Selects(g, nodes, selected)
    ensures var ls := FromNodes(g, nodes, selected, |nodes|);
            && Times(ls, |ls|, x) == (if Inside(x, selected) then Times(g.links, |g.links|, x) else 0)
            && (x in ls <==> x in g.links && Inside(x, selected))
  {
    SelectedPlain(g, nodes, selected);
    FromNodesTimes(g, nodes, selected, |nodes|, x);
    TimesIn(FromNodes(g, nodes, selected, |nodes|), x);
    TimesIn(g.links, x);
    SelectedPorts(g, nodes, selected, x.from);
  }

  lemma CurrentSurvives(g: Graph, selected: set<Id>, l: Link)
    requires WellFormed(g) && AllCurrent(g, selected) && l in g.links && Inside(l, selected)
    ensures Survives(g, l) && Current(l) == l
  {
    CurrentStays(l.from);
    CurrentStays(l.to);
  }

  /** Every inner connection is loaded as often as it exists, under its new name. */
  lemma LinksCopied(g: Graph, nodes: seq<Node>, selected: set<Id>, h: Graph, ids: seq<Id>, y: Link)
    requires Setting(g, nodes, selected, h, ids) && AllCurrent(g, selected) && y in g.links && Inside(y, selected)
    ensures Even(SavedGraph(g, nodes, selected).connections)
    ensures var added, mapping := Added(g, nodes, selected, h, ids), NewNames(nodes, ids);
            Renames(mapping, y) && Times(added, |added|, Renamed(mapping, y)) == Times(g.links, |g.links|, y)
  {
    var mapping := NewNames(nodes, ids);
    var read := Reader(mapping, h.nodes + NodeCopies(nodes, ids));
    var ls := FromNodes(g, nodes, selected, |nodes|);
    LinkLoaded(g, nodes, selected, h, ids, y);
    CurrentSurvives(g, selected, y);
    forall l | l in ls ensures read(LineOf(l)) == Some(Renamed(mapping, y)) <==> l == y {
      SavedInner(g, nodes, selected, l);
      LinkLoaded(g, nodes, selected, h, ids, l);
      CurrentSurvives(g, selected, l);
      if Renamed(mapping, l) == Renamed(mapping, y) {
        RenamedDiffers(nodes, ids, l, y);
      }
    }
    MatchesTimes(read, ls, |ls|, Renamed(mapping, y), y);
    GroupedTimes(read, ls, |ls|, Renamed(mapping, y));
    SavedInner(g, nodes, selected, y);
  }

  /** Every loaded connection is an inner connection with its current port names, under its new name. */
  lemma OnlyInnerCopied(g: Graph, nodes: seq<Node>, selected: set<Id>, h: Graph, ids: seq<Id>, x: Link)
    returns (y: Link)
    requires Setting(g, nodes, selected, h, ids) && Even(SavedGraph(g, nodes, selected).connections)
    requires x in Added(g, nodes, selected, h, ids)
    ensures y in g.links && Inside(y, selected)
    ensures Renames(NewNames(nodes, ids), y) && Survives(g, y) && Renamed(NewNames(nodes, ids), Current(y)) == x
    ensures var mapping := NewNames(nodes, ids);
            x == Link([CurrentName(y.from[0])] + mapping[y.from[1..]], [CurrentName(y.to[0])] + mapping[y.to[1..]], y.active)
  {
    var read := Reader(NewNames(nodes, ids), h.nodes + NodeCopies(nodes, ids));
    var ls := FromNodes(g, nodes, selected, |nodes|);
    var added := Added(g, nodes, selected, h, ids);
    TimesIn(added, x);
    GroupedTimes(read, ls, |ls|, x);
    y := MatchesSome(read, ls, |ls|, x);
    SavedInner(g, nodes, selected, y);
    LinkLoaded(g, nodes, selected, h, ids, y);
  }

  lemma AddedLinks(g: Graph, nodes: seq<Node>, selected: set<Id>, h: Graph, ids: seq<Id>)
    requires Setting(g, nodes, selected, h, ids)
    ensures Even(SavedGraph(g, nodes, selected).connections)
    ensures var r, added := LoadedGraph(h, SavedGraph(g, nodes, selected), ids), Added(g, nodes, selected, h, ids);
            r.links == h.links + added && r.nodes == h.nodes + NodeCopies(nodes, ids)
  {
    var links := FromNodes(g, nodes, selected, |nodes|);
    GroupedEven(links, |links|);
  }

  /** The added connections are exactly the renamed ones between selected nodes, each as often as it exists. */
  ghost predicate ExactlyRenamed(g: Graph, selected: set<Id>, mapping: map<Id, Id>, added: seq<Link>) {
    && (forall y | y in g.links && Inside(y, selected) ::
          Renames(mapping, y) && Times(added, |added|, Renamed(mapping, y)) == Times(g.links, |g.links|, y))
    && (forall x | x in added ::
          exists y :: y in g.links && Inside(y, selected) && Renames(mapping, y) && Renamed(mapping, y) == x)
  }

  // ---------------------------------------------------------------- exactly what is copied

  lemma {:induction false} MatchesConcat(read: Line -> Option<Link>, a: seq<Link>, b: seq<Link>, n: nat, x: Link)
    requires n <= |b|
    ensures Matches(read, a + b, |a| + n, x) == Matches(read, a, |a|, x) + Matches(read, b, n, x)
  {
    if n == 0 {
      MatchesPrefix(read, a, b, |a|, x);
    } else {
      MatchesConcat(read, a, b, n - 1, x);
    }
  }

  lemma {:induction false} MatchesPrefix(read: Line -> Option<Link>, a: seq<Link>, b: seq<Link>, n: nat, x: Link)
    requires n <= |a|
    ensures Matches(read, a + b, n, x) == Matches(read, a, n, x)
  {
    if n > 0 {
      MatchesPrefix(read, a, b, n - 1, x);
    }
  }

  function One(b: bool): nat {
    if b then 1 else 0
  }

  lemma MatchesMiddle(read: Line -> Option<Link>, a: seq<Link>, l: Link, b: seq<Link>, x: Link)
    ensures Matches(read, a + ([l] + b), |a + ([l] + b)|, x) == Matches(read, a + b, |a + b|, x) + One(read(LineOf(l)) == Some(x))
  {
    MatchesConcat(read, a, [l] + b, |[l] + b|, x);
    MatchesConcat(read, [l], b, |b|, x);
    MatchesConcat(read, a, b, |b|, x);
  }

  /** Taking one line out. */
  lemma MatchesWithout(read: Line -> Option<Link>, a: seq<Link>, l: Link, x: Link) returns (rest: seq<Link>)
    requires l in a
    ensures |rest| == |a| - 1 && multiset(a) == multiset(rest) + multiset{l}
    ensures Matches(read, a, |a|, x) == Matches(read, rest, |rest|, x) + One(read(LineOf(l)) == Some(x))
  {
    var k :| 0 <= k < |a| && a[k] == l;
    var before, behind := a[..k], a[k + 1..];
    rest := before + behind;
    assert a == before + ([l] + behind);
    MatchesMiddle(read, before, l, behind, x);
  }

  /** What lines are read as does not depend on their order. */
  lemma {:induction false} MatchesOrder(read: Line -> Option<Link>, a: seq<Link>, b: seq<Link>, x: Link)
    requires multiset(a) == multiset(b)
    ensures Matches(read, a, |a|, x) == Matches(read, b, |b|, x)
    decreases |a|
  {
    if a == [] {
      assert |multiset(b)| == 0;
    } else {
      var l := a[0];
      assert l in multiset(b);
      var c := MatchesWithout(read, a, l, x);
      var d := MatchesWithout(read, b, l, x);
      assert multiset(c) == multiset(a) - multiset{l};
      assert multiset(d) == multiset(b) - multiset{l};
      MatchesOrder(read, c, d, x);
    }
  }

  lemma {:induction false} TimesAre(ls: seq<Link>, n: nat, x: Link)
    requires n <= |ls|
    ensures Times(ls, n, x) == multiset(ls[..n])[x]
  {
    if n > 0 {
      TimesAre(ls, n - 1, x);
      assert ls[..n] == ls[..n - 1] + [ls[n - 1]];
    }
  }

  lemma SameTimes(a: seq<Link>, b: seq<Link>)
    requires forall x :: Times(a, |a|, x) == Times(b, |b|, x)
    ensures multiset(a) == multiset(b)
  {
    assert a[..|a|] == a && b[..|b|] == b;
    forall x ensures multiset(a)[x] == multiset(b)[x] {
      TimesAre(a, |a|, x);
      TimesAre(b, |b|, x);
    }
  }

  /** The inner ones among the first n connections. */
  function Inner(ls: seq<Link>, selected: set<Id>, n: nat): seq<Link>
    requires n <= |ls|
  {
    if n == 0 then []
    else if Inside(ls[n - 1], selected) then Inner(ls, selected, n - 1) + [ls[n - 1]]
    else Inner(ls, selected, n - 1)
  }

  lemma {:induction false} InnerTimes(ls: seq<Link>, selected: set<Id>, n: nat, x: Link)
    requires n <= |ls|
    ensures var inner := Inner(ls, selected, n);
            Times(inner, |inner|, x) == if Inside(x, selected) then Times(ls, n, x) else 0
  {
    if n > 0 {
      InnerTimes(ls, selected, n - 1, x);
      TimesMore(Inner(ls, selected, n - 1), ls[n - 1], x);
    }
  }

  lemma SavedIsInner(g: Graph, nodes: seq<Node>, selected: set<Id>)
    requires WellFormed(g) && Selects(g, nodes, selected)
    ensures multiset(FromNodes(g, nodes, selected, |nodes|)) == multiset(Inner(g.links, selected, |g.links|))
  {
    var ls, inner := FromNodes(g, nodes, selected, |nodes|), Inner(g.links, selected, |g.links|);
    forall x ensures Times(ls, |ls|, x) == Times(inner, |inner|, x) {
      SavedInner(g, nodes, selected, x);
      InnerTimes(g.links, selected, |g.links|, x);
    }
    SameTimes(ls, inner);
  }

  lemma {:induction false} InnerMatches(read: Line -> Option<Link>, g: Graph, selected: set<Id>, mapping: map<Id, Id>, n: nat, x: Link)
    requires n <= |g.links|
    requires forall l | l in g.links && Inside(l, selected) ::
               read(LineOf(l)) == if Survives(g, l) then Some(Renamed(mapping, Current(l))) else None
    ensures var inner, copies := Inner(g.links, selected, n), CopiesOf(g, selected, mapping, n);
            Matches(read, inner, |inner|, x) == Times(copies, |copies|, x)
  {
    if n > 0 {
      var l, inner, copies := g.links[n - 1], Inner(g.links, selected, n - 1), CopiesOf(g, selected, mapping, n - 1);
      assert l in g.links;
      InnerMatches(read, g, selected, mapping, n - 1, x);
      if Inside(l, selected) {
        MatchesPrefix(read, inner, [l], |inner|, x);
        TimesMore(copies, Renamed(mapping, Current(l)), x);
      }
    }
  }

  /** The added connections are the inner ones whose ports exist under their current names. */
  lemma AddedExactly(g: Graph, nodes: seq<Node>, selected: set<Id>, h: Graph, ids: seq<Id>)
    requires Setting(g, nodes, selected, h, ids) && Even(SavedGraph(g, nodes, selected).connections)
    ensures multiset(Added(g, nodes, selected, h, ids))
            == multiset(CopiesOf(g, selected, NewNames(nodes, ids), |g.links|))
  {
    var added, mapping := Added(g, nodes, selected, h, ids), NewNames(nodes, ids);
    var copies := CopiesOf(g, selected, mapping, |g.links|);
    var read := Reader(mapping, h.nodes + NodeCopies(nodes, ids));
    var ls, inner := FromNodes(g, nodes, selected, |nodes|), Inner(g.links, selected, |g.links|);
    forall l | l in g.links && Inside(l, selected)
      ensures read(LineOf(l)) == if Survives(g, l) then Some(Renamed(mapping, Current(l))) else None
    {
      LinkLoaded(g, nodes, selected, h, ids, l);
    }
    SavedIsInner(g, nodes, selected);
    forall x ensures Times(added, |added|, x) == Times(copies, |copies|, x) {
      GroupedTimes(read, ls, |ls|, x);
      MatchesOrder(read, ls, inner, x);
      InnerMatches(read, g, selected, mapping, |g.links|, x);
    }
    SameTimes(added, copies);
  }

  /** An inner connection is copied if and only if each of its ports has no old name, or its node has the port with the
      current name. */
  lemma CopiedExactly(g: Graph, nodes: seq<Node>, selected: set<Id>, h: Graph, ids: seq<Id>, y: Link)
    requires Setting(g, nodes, selected, h, ids) && Even(SavedGraph(g, nodes, selected).connections)
    requires y in g.links && Inside(y, selected)
    ensures Renamed(NewNames(nodes, ids), Current(y)) in Added(g, nodes, selected, h, ids) <==>
            && (OldName(y.from) ==> HasPort(g.nodes, |g.nodes|, CurrentPort(y.from), true))
            && (OldName(y.to) ==> HasPort(g.nodes, |g.nodes|, CurrentPort(y.to), false))
  {
    var added, mapping := Added(g, nodes, selected, h, ids), NewNames(nodes, ids);
    var x := Renamed(mapping, Current(y));
    if !OldName(y.from) {
      CurrentStays(y.from);
    }
    if !OldName(y.to) {
      CurrentStays(y.to);
    }
    if x in added {
      var z := OnlyInnerCopied(g, nodes, selected, h, ids, x);
      LinkLoaded(g, nodes, selected, h, ids, y);
      RenamedDiffers(nodes, ids, Current(y), Current(z));
    }
    if Survives(g, y) {
      LinkLoaded(g, nodes, selected, h, ids, y);
      SurvivorAdded(g, nodes, selected, h, ids, y);
    }
  }

  lemma SurvivorAdded(g: Graph, nodes: seq<Node>, selected: set<Id>, h: Graph, ids: seq<Id>, y: Link)
    requires Setting(g, nodes, selected, h, ids) && Even(SavedGraph(g, nodes, selected).connections)
    requires y in g.links && Inside(y, selected) && Survives(g, y)
    ensures Renamed(NewNames(nodes, ids), Current(y)) in Added(g, nodes, selected, h, ids)
  {
    var read := Reader(NewNames(nodes, ids), h.nodes + NodeCopies(nodes, ids));
    var ls, x := FromNodes(g, nodes, selected, |nodes|), Renamed(NewNames(nodes, ids), Current(y));
    LinkLoaded(g, nodes, selected, h, ids, y);
    SavedInner(g, nodes, selected, y);
    var k :| 0 <= k < |ls| && ls[k] == y;
    MatchesAt(read, ls, |ls|, k, x);
    GroupedTimes(read, ls, |ls|, x);
    TimesIn(Added(g, nodes, selected, h, ids), x);
  }

  lemma {:induction false} MatchesAt(read: Line -> Option<Link>, ls: seq<Link>, n: nat, k: nat, x: Link)
    requires k < n <= |ls| && read(LineOf(ls[k])) == Some(x)
    ensures Matches(read, ls, n, x) > 0
  {
    if k < n - 1 {
      MatchesAt(read, ls, n - 1, k, x);
    }
  }

  /** The connections are copied exactly if and only if no inner connection has a port with an old name. */
  lemma RenamedExactly(g: Graph, nodes: seq<Node>, selected: set<Id>, h: Graph, ids: seq<Id>)
    requires Setting(g, nodes, selected, h, ids) && Even(SavedGraph(g, nodes, selected).connections)
    ensures ExactlyRenamed(g, selected, NewNames(nodes, ids), Added(g, nodes, selected, h, ids)) <==> AllCurrent(g, selected)
  {
    var added, mapping := Added(g, nodes, selected, h, ids), NewNames(nodes, ids);
    if AllCurrent(g, selected) {
      forall y | y in g.links && Inside(y, selected)
        ensures Renames(mapping, y) && Times(added, |added|, Renamed(mapping, y)) == Times(g.links, |g.links|, y)
      {
        LinksCopied(g, nodes, selected, h, ids, y);
      }
      forall x | x in added
        ensures exists y :: y in g.links && Inside(y, selected) && Renames(mapping, y) && Renamed(mapping, y) == x
      {
        var y := OnlyInnerCopied(g, nodes, selected, h, ids, x);
        CurrentSurvives(g, selected, y);
      }
    } else {
      var y :| y in g.links && Inside(y, selected) && (OldName(y.from) || OldName(y.to));
      OldNotAdded(g, nodes, selected, h, ids, y);
      TimesIn(g.links, y);
      TimesIn(added, Renamed(mapping, y));
    }
  }

  /** No connection is made between ports with old names. */
  lemma OldNotAdded(g: Graph, nodes: seq<Node>, selected: set<Id>, h: Graph, ids: seq<Id>, y: Link)
    requires Setting(g, nodes, selected, h, ids) && Even(SavedGraph(g, nodes, selected).connections)
    requires y in g.links && Inside(y, selected) && (OldName(y.from) || OldName(y.to))
    ensures Renamed(NewNames(nodes, ids), y) !in Added(g, nodes, selected, h, ids)
  {
    var added, mapping := Added(g, nodes, selected, h, ids), NewNames(nodes, ids);
    LinkLoaded(g, nodes, selected, h, ids, y);
    if Renamed(mapping, y) in added {
      var z := OnlyInnerCopied(g, nodes, selected, h, ids, Renamed(mapping, y));
      RenamedDiffers(nodes, ids, y, Current(z));
      CurrentIsNotOld(z.from);
      CurrentIsNotOld(z.to);
    }
  }

  // ---------------------------------------------------------------- the operations

  function Lookup(nodes: seq<Node>, n: nat, u: Id): Option<Node>
    requires n <= |nodes|
    ensures Lookup(nodes, n, u).Some? ==> Lookup(nodes, n, u).value in nodes && Lookup(nodes, n, u).value.id == u
  {
    if n == 0 then None else if nodes[n - 1].id == u then Some(nodes[n - 1]) else Lookup(nodes, n - 1, u)
  }

  ghost predicate AllKnown(g: Graph, uuids: seq<Id>) {
    forall k | 0 <= k < |uuids| :: Lookup(g.nodes, |g.nodes|, uuids[k]).Some?
  }

  function Found(g: Graph, uuids: seq<Id>, n: nat): (r: seq<Node>)
    requires n <= |uuids| && AllKnown(g, uuids)
    ensures |r| == n && forall k | 0 <= k < n :: r[k].id == uuids[k] && r[k] in g.nodes
  {
    if n == 0 then [] else Found(g, uuids, n - 1) + [Lookup(g.nodes, |g.nodes|, uuids[n - 1]).value]
  }

  lemma FoundSelects(g: Graph, uuids: seq<Id>)
    requires WellFormed(g) && AllKnown(g, uuids) && forall i, j | 0 <= i < j < |uuids| :: uuids[i] != uuids[j]
    ensures Selects(g, Found(g, uuids, |uuids|), IdSet(uuids))
  {
    var nodes := Found(g, uuids, |uuids|);
    forall u | u in uuids ensures exists k :: 0 <= k < |nodes| && nodes[k].id == u {
      var k :| 0 <= k < |uuids| && uuids[k] == u;
      assert nodes[k].id == u;
    }
  }

  method SaveConnections(links: seq<Link>) returns (es: seq<Entry>)
    ensures es == Grouped(links, |links|)
  {
    es := [];
    for i := 0 to |links|
      invariant es == Grouped(links, i)
    {
      es := Pushed(es, LineOf(links[i]));
    }
  }

  method SaveSelectedGraph(g: Graph, uuids: seq<Id>) returns (s: Snippet)
    requires AllKnown(g, uuids)
    ensures s == SavedGraph(g, Found(g, uuids, |uuids|), IdSet(uuids))
  {
    var selected := IdSet(uuids);
    var saved, nodes, links := [], [], [];
    ghost var all := Found(g, uuids, |uuids|);
    for i := 0 to |uuids|
      invariant nodes == Found(g, uuids, i) && nodes == all[..i]
      invariant saved == SavedNodes(all, i) && links == FromNodes(g, all, selected, i)
    {
      var node := Lookup(g.nodes, |g.nodes|, uuids[i]).value;
      FoundAt(g, uuids, |uuids|, i);
      nodes := nodes + [node];
      saved := saved + [SavedNode(Print(node.id), node.kind, node.ports)];
      ghost var before := links;
      for j := 0 to |node.ports|
        invariant links == before + FromNode(g, node, selected, j)
      {
        if node.ports[j].isOutput {
          var own := SaveOutput(g, PortId(node.id, node.ports[j]), selected);
          links := links + own;
        }
      }
    }
    assert all[..|uuids|] == all;
    var es := SaveConnections(links);
    s := Snippet(saved, es);
  }

  lemma {:induction false} FoundAt(g: Graph, uuids: seq<Id>, n: nat, k: nat)
    requires k < n <= |uuids| && AllKnown(g, uuids)
    ensures Found(g, uuids, n)[k] == Lookup(g.nodes, |g.nodes|, uuids[k]).value
  {
    if k < n - 1 {
      FoundAt(g, uuids, n - 1, k);
    }
  }

  method SaveOutput(g: Graph, from: Id, selected: set<Id>) returns (links: seq<Link>)
    ensures links == FromPort(g, from, selected, |g.links|)
  {
    links := [];
    for i := 0 to |g.links|
      invariant links == FromPort(g, from, selected, i)
    {
      if g.links[i].from == from && Parent(g.links[i].to) in selected {
        links := links + [g.links[i]];
      }
    }
  }

  /** The id has been generated for this kind of node. */
  ghost predicate IsOfKind(id: Id, kind: string) {
    exists k: nat :: Candidate(kind, k) == id
  }

  ghost predicate Suits(id: Id, kind: string) {
    IsOfKind(id, kind) && (PlainText(kind) ==> PlainId(id))
  }

  method NewNode(provider: Provider, kind: string) returns (id: Id)
    requires !IsAt(kind, 0)
    modifies provider
    ensures Print(id) !in old(provider.names) && provider.names.Keys == old(provider.names).Keys + {Print(id)}
    ensures NewId(old(provider.View()), Generate(kind)) == Some(id) && Suits(id, kind)
  {
    ghost var s := provider.View();
    id := provider.GenerateUUID(kind);
    if PlainText(kind) {
      CandidatePlain(kind, FirstFree(s.names.Keys, kind, Counter(s.counters, kind)));
    }
  }

  lemma {:induction false} MappingMore(saved: seq<SavedNode>, ids: seq<Id>, id: Id, n: nat)
    requires n <= |saved| && n <= |ids|
    ensures MappingOf(saved, ids + [id], n) == MappingOf(saved, ids, n)
  {
    if n > 0 {
      MappingMore(saved, ids, id, n - 1);
    }
  }

  /** New ids have names that had not been taken. */
  ghost predicate Untaken(taken: set<string>, ids: seq<Id>) {
    && (forall k | 0 <= k < |ids| :: Print(ids[k]) !in taken)
    && forall i, j | 0 <= i < j < |ids| :: Print(ids[i]) != Print(ids[j])
  }

  lemma UntakenMore(taken: set<string>, names: set<string>, ids: seq<Id>, id: Id)
    requires Untaken(taken, ids) && taken <= names && Print(id) !in names
    requires forall k | 0 <= k < |ids| :: Print(ids[k]) in names
    ensures Untaken(taken, ids + [id])
    ensures forall k | 0 <= k < |ids + [id]| :: Print((ids + [id])[k]) in names + {Print(id)}
  {
  }

  method NewNodes(provider: Provider, saved: seq<SavedNode>) returns (mapping: map<Id, Id>, ghost ids: seq<Id>)
    requires forall k | 0 <= k < |saved| :: !IsAt(saved[k].kind, 0) && !IsAt(saved[k].uuid, 0)
    modifies provider
    ensures |ids| == |saved| && mapping == MappingOf(saved, ids, |ids|)
    ensures Untaken(old(provider.names.Keys), ids) && forall k | 0 <= k < |ids| :: Suits(ids[k], saved[k].kind)
  {
    mapping, ids := map[], [];
    ghost var taken := provider.names.Keys;
    for i := 0 to |saved|
      invariant |ids| == i && mapping == MappingOf(saved, ids, i)
      invariant Untaken(taken, ids) && taken <= provider.names.Keys
      invariant forall k | 0 <= k < i :: Print(ids[k]) in provider.names.Keys && Suits(ids[k], saved[k].kind)
    {
      ghost var names := provider.names.Keys;
      var id := NewNode(provider, saved[i].kind);
      UntakenMore(taken, names, ids, id);
      MappingMore(saved, ids, id, i);
      var uuid := Parse(saved[i].uuid);
      ids := ids + [id];
      mapping := mapping[uuid := id];
    }
  }

  method LoadConnection(mapping: map<Id, Id>, nodes: seq<Node>, e: Entry) returns (links: seq<Link>)
    requires |e.targets| == |e.active|
    ensures links == LoadedEntry(Reader(mapping, nodes), e, |e.targets|)
  {
    links := [];
    var from := ReadConnector(mapping, e.uuid);
    for j := 0 to |e.targets|
      invariant links == LoadedEntry(Reader(mapping, nodes), e, j)
    {
      ghost var line := Line(e.uuid, e.targets[j], e.active[j]);
      assert Reader(mapping, nodes)(line) == ReadLine(mapping, nodes, line);
      var to := ReadConnector(mapping, e.targets[j]);
      if HasPort(nodes, |nodes|, from, true) && HasPort(nodes, |nodes|, to, false) {
        links := links + [Link(from, to, e.active[j])];
      }
    }
  }

  method LoadNodes(mapping: map<Id, Id>, saved: seq<SavedNode>) returns (nodes: seq<Node>)
    requires forall k | 0 <= k < |saved| :: !IsAt(saved[k].uuid, 0)
    ensures nodes == Copies(saved, mapping, |saved|)
  {
    nodes := [];
    for i := 0 to |saved|
      invariant nodes == Copies(saved, mapping, i)
    {
      nodes := nodes + [Node(ReadNode(mapping, saved[i].uuid), saved[i].kind, saved[i].ports)];
    }
  }

  method LoadConnections(mapping: map<Id, Id>, nodes: seq<Node>, es: seq<Entry>) returns (links: seq<Link>)
    requires Even(es)
    ensures links == Loaded(Reader(mapping, nodes), es, |es|)
  {
    links := [];
    for i := 0 to |es|
      invariant links == Loaded(Reader(mapping, nodes), es, i)
    {
      var own := LoadConnection(mapping, nodes, es[i]);
      links := links + own;
    }
  }

  method LoadIntoGraph(provider: Provider, s: Snippet, h: Graph) returns (r: Graph, mapping: map<Id, Id>, ghost ids: seq<Id>)
    requires forall k | 0 <= k < |s.nodes| :: !IsAt(s.nodes[k].kind, 0) && !IsAt(s.nodes[k].uuid, 0)
    requires Even(s.connections)
    modifies provider
    ensures |ids| == |s.nodes| && mapping == MappingOf(s.nodes, ids, |ids|) && r == LoadedGraph(h, s, ids)
    ensures Untaken(old(provider.names.Keys), ids) && forall k | 0 <= k < |ids| :: Suits(ids[k], s.nodes[k].kind)
  {
    mapping, ids := NewNodes(provider, s.nodes);
    var copies := LoadNodes(mapping, s.nodes);
    var added := LoadConnections(mapping, h.nodes + copies, s.connections);
    r := Graph(h.nodes + copies, h.links + added);
  }

  /** Ids that had not been taken are new to a graph whose nodes are registered. */
  lemma UntakenIsNew(taken: set<string>, h: Graph, ids: seq<Id>)
    requires Untaken(taken, ids) && forall k | 0 <= k < |ids| :: PlainId(ids[k])
    requires forall i | 0 <= i < |h.nodes| :: Print(h.nodes[i].id) in taken
    ensures NewIds(h, ids)
  {
    forall i, j | 0 <= i < j < |ids| ensures ids[i] != ids[j] {
      assert Print(ids[i]) != Print(ids[j]);
    }
    forall i, k | 0 <= i < |h.nodes| && 0 <= k < |ids| ensures h.nodes[i].id != ids[k] {
      assert Print(h.nodes[i].id) in taken;
    }
  }

  function IdSet(uuids: seq<Id>): set<Id> {
    set u | u in uuids
  }

  /** The copies are new nodes with the kinds and ports of the selected ones. */
  ghost predicate Copied(nodes: seq<Node>, copies: seq<Node>, mapping: map<Id, Id>) {
    && |copies| == |nodes| && NodesDiffer(copies)
    && forall k | 0 <= k < |nodes| ::
         nodes[k].id in mapping && copies[k] == Node(mapping[nodes[k].id], nodes[k].kind, nodes[k].ports)
  }

  lemma CopiesAreNew(g: Graph, nodes: seq<Node>, selected: set<Id>, h: Graph, ids: seq<Id>)
    requires Setting(g, nodes, selected, h, ids)
    ensures Copied(nodes, NodeCopies(nodes, ids), NewNames(nodes, ids))
    ensures forall k | 0 <= k < |nodes| :: NodeCopies(nodes, ids)[k].id == ids[k]
  {
    SelectedPlain(g, nodes, selected);
    forall k | 0 <= k < |nodes|
      ensures NodeCopies(nodes, ids)[k] == Node(ids[k], nodes[k].kind, nodes[k].ports)
      ensures nodes[k].id in NewNames(nodes, ids) && NewNames(nodes, ids)[nodes[k].id] == ids[k]
    {
      CopyAt(nodes, ids, k);
      MappingAt(nodes, ids, |ids|, k);
    }
  }

  /** Pasting a saved selection makes a copy: one new node for each selected node, with its kind and ports, and exactly the
      inner connections whose ports exist under their current names; everything else stays as it is.  The copy is
      isomorphic if and only if no inner connection has a port with an old name. */
  lemma PasteCopies(g: Graph, nodes: seq<Node>, selected: set<Id>, h: Graph, ids: seq<Id>)
    returns (copies: seq<Node>, added: seq<Link>)
    requires Setting(g, nodes, selected, h, ids)
    ensures Even(SavedGraph(g, nodes, selected).connections)
    ensures var mapping := NewNames(nodes, ids);
            && LoadedGraph(h, SavedGraph(g, nodes, selected), ids) == Graph(h.nodes + copies, h.links + added)
            && Copied(nodes, copies, mapping) && (forall k | 0 <= k < |copies| :: copies[k].id == ids[k])
            && multiset(added) == multiset(CopiesOf(g, selected, mapping, |g.links|))
            && (ExactlyRenamed(g, selected, mapping, added) <==> AllCurrent(g, selected))
  {
    AddedLinks(g, nodes, selected, h, ids);
    AddedExactly(g, nodes, selected, h, ids);
    RenamedExactly(g, nodes, selected, h, ids);
    CopiesAreNew(g, nodes, selected, h, ids);
    copies, added := NodeCopies(nodes, ids), Added(g, nodes, selected, h, ids);
  }

  lemma LetterIsPlain(c: char)
    requires 'a' <= c <= 'z'
    ensures PlainText([c]) && PlainId([[c]]) && forall p :: !LegacyAt(Print([[c]]), p)
  {
    SingleNotOld([c]);
  }

  const A: Id := [['a']]
  const B: Id := [['b']]
  const COPY_IDS: seq<Id> := [[['c']], [['d']]]

  /** Two nodes and a connection from the one port to the other. */
  function TwoNodes(output: string, input: string): Graph {
    Graph([Node(A, ['a'], [Port(output, true)]), Node(B, ['b'], [Port(input, false)])],
          [Link([output] + A, [input] + B, true)])
  }

  lemma TwoNodesWellFormed(output: string, input: string)
    requires PlainText(output) && PlainText(input)
    ensures WellFormed(TwoNodes(output, input))
  {
    var g := TwoNodes(output, input);
    var source, target := g.nodes[0], g.nodes[1];
    LetterIsPlain('a');
    LetterIsPlain('b');
    assert A[0] != B[0];
    assert PlainNode(source) && PlainNode(target);
    assert Has(source, 1, g.links[0].from, true) && Has(target, 1, g.links[0].to, false);
    HasPortAt(g.nodes, 2, 0, g.links[0].from, true);
    HasPortAt(g.nodes, 2, 1, g.links[0].to, false);
  }

  lemma TwoNodesSelected(output: string, input: string)
    requires PlainText(output) && PlainText(input)
    ensures Setting(TwoNodes(output, input), TwoNodes(output, input).nodes, {A, B}, Graph([], []), COPY_IDS)
  {
    var g := TwoNodes(output, input);
    TwoNodesWellFormed(output, input);
    assert g.nodes[0].id == A && g.nodes[1].id == B;
    LetterIsPlain('c');
    LetterIsPlain('d');
    assert COPY_IDS[0][0] == ['c'] && COPY_IDS[1][0] == ['d'];
  }

  lemma NoPortLeft(output: string, input: string)
    requires OLD <= output
    ensures var g := TwoNodes(output, input); !HasPort(g.nodes, 2, CurrentPort([output] + A), true)
  {
    var g, id := TwoNodes(output, input), CurrentPort([output] + A);
    assert id[0] == CurrentName(output) && id[0][0] == 'e' && output[0] == 't';
    assert PortId(A, g.nodes[0].ports[0])[0] == output;
    assert !Has(g.nodes[0], 1, id, true) && !Has(g.nodes[1], 1, id, true);
    assert !HasPort(g.nodes, 1, id, true);
  }

  /** Whatever follows the old prefix in the name of an output, its only connection is lost: the node has no other port. */
  lemma OldNameLost(output: string, input: string)
    requires PlainText(output) && PlainText(input) && OLD <= output
    ensures var g := TwoNodes(output, input);
            && Setting(g, g.nodes, {A, B}, Graph([], []), COPY_IDS) && Even(SavedGraph(g, g.nodes, {A, B}).connections)
            && Inside(g.links[0], {A, B}) && Added(g, g.nodes, {A, B}, Graph([], []), COPY_IDS) == []
  {
    var g, h := TwoNodes(output, input), Graph([], []);
    TwoNodesSelected(output, input);
    NoPortLeft(output, input);
    AddedLinks(g, g.nodes, {A, B}, h, COPY_IDS);
    AddedExactly(g, g.nodes, {A, B}, h, COPY_IDS);
    var mapping := NewNames(g.nodes, COPY_IDS);
    assert CopiesOf(g, {A, B}, mapping, 0) == [];
    assert CopiesOf(g, {A, B}, mapping, 1) == [];
    var added := Added(g, g.nodes, {A, B}, h, COPY_IDS);
    assert |multiset(added)| == 0;
    ParentIsNode(output, A);
    ParentIsNode(input, B);
  }

  lemma ParentIsNode(name: string, node: Id)
    ensures Parent([name] + node) == node
  {
  }

  lemma OldNameLostOnce()
    ensures var g := TwoNodes(OLD + ['x'], ['y']);
            && Even(SavedGraph(g, g.nodes, {A, B}).connections) && |g.links| == 1 && Inside(g.links[0], {A, B})
            && Added(g, g.nodes, {A, B}, Graph([], []), COPY_IDS) == []
  {
    var name := OLD + ['x'];
    forall k | 0 <= k < |name| ensures name[k] != '|' && name[k] != '~' {
      assert k < |OLD| ==> OLD[k] in ['t', 'r', 'i', 'g', 'e', '_'];
    }
    OldNameLost(name, ['y']);
  }

  lemma SavedReadable(g: Graph, nodes: seq<Node>, selected: set<Id>)
    requires WellFormed(g) && Selects(g, nodes, selected)
    ensures var s := SavedGraph(g, nodes, selected);
            && Even(s.connections)
            && forall k | 0 <= k < |s.nodes| :: !IsAt(s.nodes[k].kind, 0) && !IsAt(s.nodes[k].uuid, 0) && PlainText(s.nodes[k].kind)
  {
    SelectedPlain(g, nodes, selected);
    forall k | 0 <= k < |nodes| ensures !IsAt(nodes[k].kind, 0) && !IsAt(Print(nodes[k].id), 0) {
      PlainParses(nodes[k].id);
    }
    GroupedEven(FromNodes(g, nodes, selected, |nodes|), |FromNodes(g, nodes, selected, |nodes|)|);
  }

  /** Saving a selection and loading it into any graph whose nodes are registered. */
  method CopyAndPaste(provider: Provider, g: Graph, uuids: seq<Id>, h: Graph)
    returns (r: Graph, mapping: map<Id, Id>, ghost copies: seq<Node>, ghost added: seq<Link>)
    requires WellFormed(g) && AllKnown(g, uuids) && forall i, j | 0 <= i < j < |uuids| :: uuids[i] != uuids[j]
    requires forall i | 0 <= i < |h.nodes| :: Print(h.nodes[i].id) in provider.names
    modifies provider
    ensures r == Graph(h.nodes + copies, h.links + added)
    ensures Copied(Found(g, uuids, |uuids|), copies, mapping)
    ensures multiset(added) == multiset(CopiesOf(g, IdSet(uuids), mapping, |g.links|))
    ensures ExactlyRenamed(g, IdSet(uuids), mapping, added) <==> AllCurrent(g, IdSet(uuids))
    ensures forall k | 0 <= k < |copies| :: Print(copies[k].id) !in old(provider.names)
  {
    var s := SaveSelectedGraph(g, uuids);
    ghost var nodes, selected := Found(g, uuids, |uuids|), IdSet(uuids);
    FoundSelects(g, uuids);
    SavedReadable(g, nodes, selected);
    ghost var ids;
    r, mapping, ids := LoadIntoGraph(provider, s, h);
    UntakenIsNew(old(provider.names.Keys), h, ids);
    copies, added := PasteCopies(g, nodes, selected, h, ids);
  }
}

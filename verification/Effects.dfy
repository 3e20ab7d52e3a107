/** What the commands that are done have done to the connections, told from their arguments alone. */
module Effects {
  import opened TokenStates
  import opened Commands
  import H = History

  /** The single commands, nested ones in place of those that contain them. */
  function Leaves(c: Command): seq<Command>
    decreases c
  {
    if c.Meta? then AllLeaves(c.commands) else [c]
  }

  function AllLeaves(cs: seq<Command>): seq<Command>
    decreases cs
  {
    if cs == [] then [] else Leaves(cs[0]) + AllLeaves(cs[1..])
  }

  predicate Makes(c: Command, from: nat, to: nat) {
    c.AddConnection? && c.from == from && c.to == to
  }

  /** Whether there is a connection between the two ends: the last command that adds or deletes one decides. */
  ghost predicate Exists(start: Conns, cs: seq<Command>, from: nat, to: nat) {
    if cs == [] then exists i :: i in start && Between(start[i], from, to)
    else
      var c, before := cs[|cs| - 1], cs[..|cs| - 1];
      Makes(c, from, to) || (Exists(start, before, from, to) && !(c.DeleteConnection? && c.from == from && c.to == to))
  }

  /** Connection i was there at the start, between these ends, or it has been added since. */
  ghost predicate Origin(start: Conns, cs: seq<Command>, i: nat, from: nat, to: nat) {
    if cs == [] then i in start && Between(start[i], from, to)
    else if Makes(cs[|cs| - 1], from, to) then i !in start
    else Origin(start, cs[..|cs| - 1], i, from, to)
  }

  /** The flag is the argument of the last modification, or of the command that added the connection, or it is that of the
      start. */
  function Flag(start: Conns, cs: seq<Command>, i: nat, from: nat, to: nat): bool {
    if cs == [] then i in start && start[i].active
    else
      var c := cs[|cs| - 1];
      if c.ModifyConnection? && c.id == i then c.active
      else if Makes(c, from, to) then c.active
      else Flag(start, cs[..|cs| - 1], i, from, to)
  }

  function ShapesOf(fs: seq<Fulcrum>): (r: seq<Shape>)
    ensures |r| == |fs| && forall k {:trigger r[k]} | 0 <= k < |fs| :: r[k] == fs[k].shape
  {
    seq(|fs|, k requires 0 <= k < |fs| => fs[k].shape)
  }

  /** The fulcrums: one after the other is put in its place or taken out of it. */
  function Shapes(start: Conns, cs: seq<Command>, i: nat, from: nat, to: nat): seq<Shape> {
    if cs == [] then if i in start then ShapesOf(start[i].fulcrums) else []
    else
      var c, before := cs[|cs| - 1], Shapes(start, cs[..|cs| - 1], i, from, to);
      if Makes(c, from, to) then []
      else if c.AddFulcrum? && c.id == i && c.at <= |before| then before[..c.at] + [c.shape] + before[c.at..]
      else if c.DeleteFulcrum? && c.removal.id == i && c.removal.at < |before| then
        before[..c.removal.at] + before[c.removal.at + 1..]
      else before
  }

  /** The connection i is what the commands say. */
  ghost predicate Told(start: Conns, cs: seq<Command>, i: nat, c: Conn) {
    && Origin(start, cs, i, c.from, c.to)
    && c.active == Flag(start, cs, i, c.from, c.to)
    && ShapesOf(c.fulcrums) == Shapes(start, cs, i, c.from, c.to) && Numbered(c.fulcrums)
  }

  ghost predicate HasConnection(conns: Conns, from: nat, to: nat) {
    exists i :: i in conns && Between(conns[i], from, to)
  }

  ghost predicate AllTold(start: Conns, cs: seq<Command>, conns: Conns) {
    && (forall i | i in conns :: Told(start, cs, i, conns[i]))
    && forall from, to :: HasConnection(conns, from, to) <==> Exists(start, cs, from, to)
  }

  ghost predicate Below(start: Conns, n: nat) {
    forall i | i in start :: i < n
  }

  lemma Front(cs: seq<Command>, c: Command)
    ensures (cs + [c])[..|cs + [c]| - 1] == cs && (cs + [c])[|cs + [c]| - 1] == c
  {
  }

  /** A connection that a command does not name. */
  lemma ToldUnnamed(start: Conns, cs: seq<Command>, c: Command, i: nat, conn: Conn)
    requires Told(start, cs, i, conn) && !c.Meta? && !Makes(c, conn.from, conn.to)
    requires !(c.ModifyConnection? && c.id == i) && !(c.AddFulcrum? && c.id == i) && !(c.DeleteFulcrum? && c.removal.id == i)
    ensures Told(start, cs + [c], i, conn)
  {
    Front(cs, c);
  }

  lemma ExistsUnnamed(start: Conns, cs: seq<Command>, c: Command, from: nat, to: nat)
    requires !c.AddConnection? && !c.DeleteConnection?
    ensures Exists(start, cs + [c], from, to) <==> Exists(start, cs, from, to)
  {
    Front(cs, c);
  }

  lemma ModifyTold(start: Conns, cs: seq<Command>, conns: Conns, c: Command)
    requires AllTold(start, cs, conns) && c.ModifyConnection? && c.id in conns
    ensures AllTold(start, cs + [c], conns[c.id := conns[c.id].(active := c.active)])
  {
    var r := conns[c.id := conns[c.id].(active := c.active)];
    forall i | i in r ensures Told(start, cs + [c], i, r[i]) {
      if i == c.id {
        Front(cs, c);
      } else {
        ToldUnnamed(start, cs, c, i, conns[i]);
      }
    }
    forall from, to ensures HasConnection(r, from, to) <==> Exists(start, cs + [c], from, to) {
      ExistsUnnamed(start, cs, c, from, to);
      SameEnds(conns, r, from, to);
    }
  }

  lemma SameEnds(a: Conns, b: Conns, from: nat, to: nat)
    requires a.Keys == b.Keys && forall i | i in a :: a[i].from == b[i].from && a[i].to == b[i].to
    ensures HasConnection(a, from, to) <==> HasConnection(b, from, to)
  {
    if i :| i in a && Between(a[i], from, to) {
      assert Between(b[i], from, to);
    }
    if i :| i in b && Between(b[i], from, to) {
      assert Between(a[i], from, to);
    }
  }

  lemma FulcrumTold(start: Conns, cs: seq<Command>, conns: Conns, c: Command, id: nat, fs: seq<Fulcrum>)
    requires AllTold(start, cs, conns) && id in conns && Numbered(fs)
    requires (c.AddFulcrum? && c.id == id) || (c.DeleteFulcrum? && c.removal.id == id)
    requires ShapesOf(fs) == Shapes(start, cs + [c], id, conns[id].from, conns[id].to)
    ensures AllTold(start, cs + [c], WithFulcrums(conns, id, fs))
  {
    var r := WithFulcrums(conns, id, fs);
    forall i | i in r ensures Told(start, cs + [c], i, r[i]) {
      if i == id {
        Front(cs, c);
      } else {
        ToldUnnamed(start, cs, c, i, conns[i]);
      }
    }
    forall from, to ensures HasConnection(r, from, to) <==> Exists(start, cs + [c], from, to) {
      ExistsUnnamed(start, cs, c, from, to);
      SameEnds(conns, r, from, to);
    }
  }

  lemma AddFulcrumTold(start: Conns, cs: seq<Command>, conns: Conns, c: Command)
    requires AllTold(start, cs, conns) && c.AddFulcrum? && c.id in conns && c.at <= |conns[c.id].fulcrums|
    ensures AllTold(start, cs + [c], WithFulcrums(conns, c.id, Insert(conns[c.id].fulcrums, c.at, c.shape)))
  {
    var fs := conns[c.id].fulcrums;
    var before, r := ShapesOf(fs), Insert(fs, c.at, c.shape);
    assert Told(start, cs, c.id, conns[c.id]);
    Front(cs, c);
    InsertNumbered(fs, c.at, c.shape);
    assert ShapesOf(r) == before[..c.at] + [c.shape] + before[c.at..];
    FulcrumTold(start, cs, conns, c, c.id, r);
  }

  lemma DeleteFulcrumTold(start: Conns, cs: seq<Command>, conns: Conns, c: Command)
    requires AllTold(start, cs, conns) && c.DeleteFulcrum? && c.removal.id in conns && c.removal.at < |conns[c.removal.id].fulcrums|
    ensures AllTold(start, cs + [c], WithFulcrums(conns, c.removal.id, Remove(conns[c.removal.id].fulcrums, c.removal.at)))
  {
    var id, at := c.removal.id, c.removal.at;
    var fs := conns[id].fulcrums;
    var before, r := ShapesOf(fs), Remove(fs, at);
    assert Told(start, cs, id, conns[id]);
    Front(cs, c);
    RemoveNumbered(fs, at);
    assert ShapesOf(r) == before[..at] + before[at + 1..];
    FulcrumTold(start, cs, conns, c, id, r);
  }

  lemma AddTold(start: Conns, cs: seq<Command>, conns: Conns, c: Command, id: nat)
    requires AllTold(start, cs, conns) && c.AddConnection? && id !in conns && id !in start
    requires !HasConnection(conns, c.from, c.to)
    ensures AllTold(start, cs + [c], conns[id := Conn(c.from, c.to, c.active, [])])
  {
    var r := conns[id := Conn(c.from, c.to, c.active, [])];
    Front(cs, c);
    forall i | i in r ensures Told(start, cs + [c], i, r[i]) {
      if i != id {
        assert !Between(conns[i], c.from, c.to);
        ToldUnnamed(start, cs, c, i, conns[i]);
      }
    }
    forall from, to ensures HasConnection(r, from, to) <==> Exists(start, cs + [c], from, to) {
      if i :| i in conns && Between(conns[i], from, to) {
        assert Between(r[i], from, to);
      }
      if Makes(c, from, to) {
        assert Between(r[id], from, to);
      }
      if i :| i in r && Between(r[i], from, to) {
        assert i == id || Between(conns[i], from, to);
      }
    }
  }

  lemma DeleteTold(start: Conns, cs: seq<Command>, conns: Conns, c: Command, id: nat)
    requires Valid(conns) && AllTold(start, cs, conns) && c.DeleteConnection? && id in conns && Between(conns[id], c.from, c.to)
    ensures AllTold(start, cs + [c], conns - {id})
  {
    var r := conns - {id};
    Front(cs, c);
    forall i | i in r ensures Told(start, cs + [c], i, r[i]) {
      ToldUnnamed(start, cs, c, i, conns[i]);
    }
    forall from, to ensures HasConnection(r, from, to) <==> Exists(start, cs + [c], from, to) {
      if i :| i in conns && Between(conns[i], from, to) {
        assert i == id || (i in r && Between(r[i], from, to));
      }
      if i :| i in r && Between(r[i], from, to) {
        assert Between(conns[i], from, to);
      }
    }
  }

  lemma LeafTold(start: Conns, cs: seq<Command>, g: Graph, c: Command)
    requires !c.Meta? && ValidGraph(g) && Below(start, g.next) && AllTold(start, cs, g.conns) && Execute(g, c).Some?
    ensures AllTold(start, cs + [c], Execute(g, c).value.0.conns)
  {
    match c
    case AddFulcrum(_, _, _) => AddFulcrumTold(start, cs, g.conns, c);
    case DeleteFulcrum(_) => DeleteFulcrumTold(start, cs, g.conns, c);
    case ModifyConnection(_, _, _) => ModifyTold(start, cs, g.conns, c);
    case AddConnection(from, to, _) => AddTold(start, cs, g.conns, c, g.next);
    case DeleteConnection(from, to, _, _, _) =>
      DeletedConns(g, c);
      DeleteTold(start, cs, g.conns, c, Find(g, from, to).value);
    case Refusal =>
  }

  lemma {:induction false} CommandTold(start: Conns, cs: seq<Command>, g: Graph, c: Command)
    requires ValidGraph(g) && Below(start, g.next) && AllTold(start, cs, g.conns) && Execute(g, c).Some?
    ensures AllTold(start, cs + Leaves(c), Execute(g, c).value.0.conns)
    decreases c
  {
    if c.Meta? {
      AllCommandsTold(start, cs, g, c.commands);
    } else {
      LeafTold(start, cs, g, c);
    }
  }

  /** Nested commands do what their parts say, in their order. */
  lemma {:induction false} AllCommandsTold(start: Conns, cs: seq<Command>, g: Graph, ds: seq<Command>)
    requires ValidGraph(g) && Below(start, g.next) && AllTold(start, cs, g.conns) && ExecuteAll(g, ds).Some?
    ensures AllTold(start, cs + AllLeaves(ds), ExecuteAll(g, ds).value.0.conns)
    decreases ds
  {
    if ds == [] {
      assert cs + AllLeaves(ds) == cs;
    } else {
      CommandTold(start, cs, g, ds[0]);
      UndoRestores(g, ds[0], Execute(g, ds[0]).value.0.next);
      NextGrows(g, ds[0]);
      AllCommandsTold(start, cs + Leaves(ds[0]), Execute(g, ds[0]).value.0, ds[1..]);
      assert cs + AllLeaves(ds) == (cs + Leaves(ds[0])) + AllLeaves(ds[1..]);
    }
  }

  // ---------------------------------------------------------------- every history

  lemma {:induction false} LeavesMore(cs: seq<Command>, c: Command)
    ensures AllLeaves(cs + [c]) == AllLeaves(cs) + Leaves(c)
    decreases |cs|
  {
    if cs == [] {
      assert cs + [c] == [c] && [c][1..] == [];
    } else {
      assert (cs + [c])[0] == cs[0] && (cs + [c])[1..] == cs[1..] + [c];
      LeavesMore(cs[1..], c);
    }
  }

  lemma StartTold(conns: Conns)
    requires Valid(conns)
    ensures AllTold(conns, [], conns)
  {
  }

  lemma {:induction false} ChainTold(g0: Graph, g: Graph, done: seq<H.Entry>)
    requires ValidGraph(g0) && H.Chain(g0, g, done)
    ensures AllTold(g0.conns, AllLeaves(H.CommandsOf(done)), g.conns)
    decreases |done|
  {
    if done == [] {
      StartTold(g0.conns);
    } else {
      var before, last := done[..|done| - 1], done[|done| - 1].command;
      var conns := Undo(g, last).value.conns;
      ChainTold(g0, Graph(conns, g.next), before);
      var next: nat :| g0.next <= next <= g.next && H.LedFrom(last, Graph(conns, next), g.conns);
      CommandTold(g0.conns, AllLeaves(H.CommandsOf(before)), Graph(conns, next), last);
      LeavesMore(H.CommandsOf(before), last);
      assert H.CommandsOf(done) == H.CommandsOf(before) + [last];
    }
  }

  /** After every run of commands, undo, redo and saves, nested commands included: there is a connection between two ends
      exactly if the commands that are done say so; its flag is the one that has been set last, by a modification of it or by
      the command that added it; its fulcrums are those that have been put in and not taken out, each in its place; and
      everything else is as it was at the start. */
  lemma HistoryTold(g0: Graph, es: seq<H.Step>, s: H.History)
    requires ValidGraph(g0) && H.Leads(H.Start(g0), es, s)
    ensures AllTold(g0.conns, AllLeaves(H.CommandsOf(s.done)), s.graph.conns)
  {
    H.LeadsInv(g0, H.Start(g0), es, s);
    ChainTold(g0, s.graph, s.done);
  }

  /** The same of a command that fails: its parts that have succeeded are done. */
  lemma AttemptTold(g: Graph, c: Command)
    requires ValidGraph(g)
    ensures AllTold(g.conns, AllLeaves(Effective(g, c)), Attempt(g, c).graph.conns)
  {
    AttemptApplies(g, c);
    StartTold(g.conns);
    AllCommandsTold(g.conns, [], g, Effective(g, c));
    assert [] + AllLeaves(Effective(g, c)) == AllLeaves(Effective(g, c));
  }

  /** A single command succeeds exactly if what it is about is there, or for a new connection, is not. */
  lemma SucceedsExactly(g: Graph, c: Command)
    requires ValidGraph(g) && !c.Meta?
    ensures Execute(g, c).Some? <==>
            match c
            case AddFulcrum(id, at, _) => id in g.conns && at <= |g.conns[id].fulcrums|
            case DeleteFulcrum(r) => r.id in g.conns && r.at < |g.conns[r.id].fulcrums|
            case ModifyConnection(id, _, _) => id in g.conns
            case AddConnection(from, to, _) => !HasConnection(g.conns, from, to)
            case DeleteConnection(from, to, _, _, _) => HasConnection(g.conns, from, to)
            case Refusal => false
  {
    if c.DeleteConnection? && Find(g, c.from, c.to).Some? {
      DeletedConns(g, c);
    }
  }
}

/**
 The commands that edit connections and their fulcrums.  A command remembers what it needs to be undone, so executing
 it yields the graph and the command with its memory.
 */
module Commands {
  import opened TokenStates

  // ---------------------------------------------------------------- fulcrums

  datatype Shape = Shape(x: int, y: int, kind: int, handleIn: (int, int), handleOut: (int, int))

  datatype Fulcrum = Fulcrum(id: int, shape: Shape)

  function Renumbered(fs: seq<Fulcrum>, step: int): (r: seq<Fulcrum>)
    ensures |r| == |fs| && forall k | 0 <= k < |fs| :: r[k] == Fulcrum(fs[k].id + step, fs[k].shape)
  {
    seq(|fs|, k requires 0 <= k < |fs| => Fulcrum(fs[k].id + step, fs[k].shape))
  }

  /** The later fulcrums get higher ids; a position behind the end means the end. */
  function Insert(fs: seq<Fulcrum>, at: nat, shape: Shape): seq<Fulcrum> {
    if at < |fs| then fs[..at] + [Fulcrum(at, shape)] + Renumbered(fs[at..], 1) else fs + [Fulcrum(at, shape)]
  }

  function Remove(fs: seq<Fulcrum>, at: nat): seq<Fulcrum>
    requires at < |fs|
  {
    fs[..at] + Renumbered(fs[at + 1..], -1)
  }

  ghost predicate Numbered(fs: seq<Fulcrum>) {
    forall k | 0 <= k < |fs| :: fs[k].id == k
  }

  /** The ids stay the positions, and the insertion can be undone, exactly if nothing is inserted behind the end. */
  lemma InsertNumbered(fs: seq<Fulcrum>, at: nat, shape: Shape)
    requires Numbered(fs)
    ensures Numbered(Insert(fs, at, shape)) <==> at <= |fs|
    ensures at < |Insert(fs, at, shape)| <==> at <= |fs|
  {
    if at > |fs| {
      assert Insert(fs, at, shape)[|fs|].id == at;
    }
  }

  lemma RemoveNumbered(fs: seq<Fulcrum>, at: nat)
    requires Numbered(fs) && at < |fs|
    ensures Numbered(Remove(fs, at))
  {
  }

  lemma RemoveInserted(fs: seq<Fulcrum>, at: nat, shape: Shape)
    requires at <= |fs|
    ensures at < |Insert(fs, at, shape)| && Remove(Insert(fs, at, shape), at) == fs
  {
  }

  lemma InsertRemoved(fs: seq<Fulcrum>, at: nat)
    requires Numbered(fs) && at < |fs|
    ensures Insert(Remove(fs, at), at, fs[at].shape) == fs
  {
  }

  /** The fulcrums of a connection. */
  class FulcrumList {
    var fulcrums: seq<Fulcrum>

    constructor ()
      ensures fulcrums == []
    {
      fulcrums := [];
    }

    method AddFulcrum(at: nat, shape: Shape)
      modifies this
      ensures fulcrums == Insert(old(fulcrums), at, shape)
    {
      var f := Fulcrum(at, shape);
      if at < |fulcrums| {
        for k := at to |fulcrums|
          invariant |fulcrums| == |old(fulcrums)|
          invariant fulcrums[..at] == old(fulcrums)[..at] && fulcrums[k..] == old(fulcrums)[k..]
          invariant forall j {:trigger fulcrums[j]} | at <= j < k :: fulcrums[j] == Fulcrum(old(fulcrums)[j].id + 1, old(fulcrums)[j].shape)
        {
          fulcrums := fulcrums[k := Fulcrum(fulcrums[k].id + 1, fulcrums[k].shape)];
        }
        fulcrums := fulcrums[..at] + [f] + fulcrums[at..];
      } else {
        fulcrums := fulcrums + [f];
      }
    }

    method DeleteFulcrum(at: nat)
      requires at < |fulcrums|
      modifies this
      ensures fulcrums == Remove(old(fulcrums), at)
    {
      for k := at to |fulcrums|
        invariant |fulcrums| == |old(fulcrums)|
        invariant fulcrums[..at] == old(fulcrums)[..at] && fulcrums[k..] == old(fulcrums)[k..]
        invariant forall j {:trigger fulcrums[j]} | at <= j < k :: fulcrums[j] == Fulcrum(old(fulcrums)[j].id - 1, old(fulcrums)[j].shape)
      {
        fulcrums := fulcrums[k := Fulcrum(fulcrums[k].id - 1, fulcrums[k].shape)];
      }
      fulcrums := fulcrums[..at] + fulcrums[at + 1..];
    }
  }

  // ---------------------------------------------------------------- the graph

  datatype Conn = Conn(from: nat, to: nat, active: bool, fulcrums: seq<Fulcrum>)

  type Conns = map<nat, Conn>

  /** The connections by their ids, and the id of the next new one. */
  datatype Graph = Graph(conns: Conns, next: nat)

  predicate Between(c: Conn, from: nat, to: nat) {
    c.from == from && c.to == to
  }

  ghost predicate Valid(conns: Conns) {
    && (forall i, j | i in conns && j in conns && Between(conns[i], conns[j].from, conns[j].to) :: i == j)
    && forall i | i in conns :: Numbered(conns[i].fulcrums)
  }

  ghost predicate ValidGraph(g: Graph) {
    Valid(g.conns) && forall i | i in g.conns :: i < g.next
  }

  /** The last of the connections with an id below n between the two ends. */
  function FindBelow(conns: Conns, n: nat, from: nat, to: nat): (id: Option<nat>)
    ensures id.Some? ==> id.value in conns && id.value < n && Between(conns[id.value], from, to)
    ensures id.None? ==> forall i | i in conns && i < n :: !Between(conns[i], from, to)
  {
    if n == 0 then None
    else if n - 1 in conns && Between(conns[n - 1], from, to) then Some(n - 1)
    else FindBelow(conns, n - 1, from, to)
  }

  function Find(g: Graph, from: nat, to: nat): Option<nat> {
    FindBelow(g.conns, g.next, from, to)
  }

  // ---------------------------------------------------------------- commands

  function NoShape(): Shape {
    Shape(0, 0, 0, (0, 0), (0, 0))
  }

  /** Deletes a fulcrum and remembers it. */
  datatype Removal = Removal(id: nat, at: nat, memory: Shape)

  datatype Command =
    | AddFulcrum(id: nat, at: nat, shape: Shape)
    | DeleteFulcrum(removal: Removal)
    | ModifyConnection(id: nat, active: bool, was: bool)
    | AddConnection(from: nat, to: nat, active: bool)
    | DeleteConnection(from: nat, to: nat, wasActive: bool, wasId: nat, nested: seq<Removal>)
    | Meta(commands: seq<Command>)
    /** Any command that reports a failure and changes nothing. */
    | Refusal

  function WithFulcrums(conns: Conns, id: nat, fs: seq<Fulcrum>): Conns
    requires id in conns
  {
    conns[id := conns[id].(fulcrums := fs)]
  }

  function DoRemoval(conns: Conns, r: Removal): Option<(Conns, Removal)> {
    if r.id !in conns || r.at >= |conns[r.id].fulcrums| then None
    else
      var fs := conns[r.id].fulcrums;
      Some((WithFulcrums(conns, r.id, Remove(fs, r.at)), r.(memory := fs[r.at].shape)))
  }

  function UndoRemoval(conns: Conns, r: Removal): Option<Conns> {
    if r.id !in conns then None else Some(WithFulcrums(conns, r.id, Insert(conns[r.id].fulcrums, r.at, r.memory)))
  }

  /** The fulcrums are deleted one by one, the last one first. */
  function DoRemovals(conns: Conns, rs: seq<Removal>, n: nat): Option<(Conns, seq<Removal>)>
    requires n <= |rs|
  {
    if n == 0 then Some((conns, []))
    else
      var before := DoRemovals(conns, rs, n - 1);
      if before.None? then None
      else
        var last := DoRemoval(before.value.0, rs[n - 1]);
        if last.None? then None else Some((last.value.0, before.value.1 + [last.value.1]))
  }

  function UndoRemovals(conns: Conns, rs: seq<Removal>, n: nat): Option<Conns>
    requires n <= |rs|
  {
    if n == 0 then Some(conns)
    else
      var last := UndoRemoval(conns, rs[n - 1]);
      if last.None? then None else UndoRemovals(last.value, rs, n - 1)
  }

  function AllFulcrums(id: nat, n: nat): (rs: seq<Removal>)
    ensures |rs| == n && forall k | 0 <= k < n :: rs[k].id == id && rs[k].at == n - 1 - k
  {
    seq(n, k requires 0 <= k < n => Removal(id, n - 1 - k, NoShape()))
  }

  /** Executing fails where the program stops with an error, and where a fulcrum would be added behind the end. */
  function Execute(g: Graph, c: Command): Option<(Graph, Command)>
    decreases c
  {
    match c
    case AddFulcrum(id, at, shape) =>
      if id !in g.conns || at > |g.conns[id].fulcrums| then None
      else Some((g.(conns := WithFulcrums(g.conns, id, Insert(g.conns[id].fulcrums, at, shape))), c))
    case DeleteFulcrum(r) =>
      var done := DoRemoval(g.conns, r);
      if done.None? then None else Some((g.(conns := done.value.0), DeleteFulcrum(done.value.1)))
    case ModifyConnection(id, active, _) =>
      if id !in g.conns then None
      else Some((g.(conns := g.conns[id := g.conns[id].(active := active)]), c.(was := g.conns[id].active)))
    case AddConnection(from, to, active) =>
      if Find(g, from, to).Some? then None
      else Some((Graph(g.conns[g.next := Conn(from, to, active, [])], g.next + 1), c))
    case DeleteConnection(from, to, _, _, _) =>
      var found := Find(g, from, to);
      if found.None? then None
      else
        var id := found.value;
        var rs := AllFulcrums(id, |g.conns[id].fulcrums|);
        var removed := DoRemovals(g.conns, rs, |rs|);
        if removed.None? then None
        else Some((g.(conns := removed.value.0 - {id}), DeleteConnection(from, to, g.conns[id].active, id, removed.value.1)))
    case Meta(cs) =>
      var done := ExecuteAll(g, cs);
      if done.None? then None else Some((done.value.0, Meta(done.value.1)))
    case Refusal => None
  }

  function ExecuteAll(g: Graph, cs: seq<Command>): Option<(Graph, seq<Command>)>
    decreases cs
  {
    if cs == [] then Some((g, []))
    else
      var first := Execute(g, cs[0]);
      if first.None? then None
      else
        var rest := ExecuteAll(first.value.0, cs[1..]);
        if rest.None? then None else Some((rest.value.0, [first.value.1] + rest.value.1))
  }

  // ---------------------------------------------------------------- commands that fail

  /** What is left of the graph, whether the program stopped with an error, and if the command succeeded, the command with
      its memory. */
  datatype Attempted = Attempted(graph: Graph, thrown: bool, success: bool, memory: Command)

  datatype AllAttempted = AllAttempted(graph: Graph, thrown: bool, success: bool, memory: seq<Command>)

  /** A nested command that refuses is only reported, and the others are executed all the same; an error ends it all. */
  function Attempt(g: Graph, c: Command): Attempted
    decreases c
  {
    match c
    case Meta(cs) => var r := AttemptAll(g, cs); Attempted(r.graph, r.thrown, r.success, Meta(r.memory))
    case Refusal => Attempted(g, false, false, c)
    case _ =>
      var r := Execute(g, c);
      if r.Some? then Attempted(r.value.0, false, true, r.value.1) else Attempted(g, true, false, c)
  }

  function AttemptAll(g: Graph, cs: seq<Command>): AllAttempted
    decreases cs
  {
    if cs == [] then AllAttempted(g, false, true, [])
    else
      var first := Attempt(g, cs[0]);
      if first.thrown then AllAttempted(first.graph, true, false, [first.memory])
      else
        var rest := AttemptAll(first.graph, cs[1..]);
        AllAttempted(rest.graph, rest.thrown, first.success && rest.success, [first.memory] + rest.memory)
  }

  /** An attempt succeeds exactly if the command can be executed, and then it is its execution. */
  lemma {:induction false} AttemptIsExecute(g: Graph, c: Command)
    ensures Attempt(g, c).success <==> Execute(g, c).Some?
    ensures Attempt(g, c).success ==> Execute(g, c) == Some((Attempt(g, c).graph, Attempt(g, c).memory)) && !Attempt(g, c).thrown
    decreases c
  {
    if c.Meta? {
      AttemptAllIsExecute(g, c.commands);
    }
  }

  lemma {:induction false} AttemptAllIsExecute(g: Graph, cs: seq<Command>)
    ensures AttemptAll(g, cs).success <==> ExecuteAll(g, cs).Some?
    ensures AttemptAll(g, cs).success ==>
              ExecuteAll(g, cs) == Some((AttemptAll(g, cs).graph, AttemptAll(g, cs).memory)) && !AttemptAll(g, cs).thrown
    decreases cs
  {
    if cs != [] {
      AttemptIsExecute(g, cs[0]);
      if !Attempt(g, cs[0]).thrown {
        AttemptAllIsExecute(Attempt(g, cs[0]).graph, cs[1..]);
      }
    }
  }

  /** The commands, nested ones in place of those that contain them, that take effect in an attempt. */
  ghost function Effective(g: Graph, c: Command): seq<Command>
    decreases c
  {
    if c.Meta? then AllEffective(g, c.commands) else if Execute(g, c).Some? then [c] else []
  }

  ghost function AllEffective(g: Graph, cs: seq<Command>): seq<Command>
    decreases cs
  {
    if cs == [] then []
    else if Attempt(g, cs[0]).thrown then Effective(g, cs[0])
    else Effective(g, cs[0]) + AllEffective(Attempt(g, cs[0]).graph, cs[1..])
  }

  lemma ExecuteOne(g: Graph, c: Command)
    ensures ExecuteAll(g, [c]).Some? == Execute(g, c).Some?
    ensures Execute(g, c).Some? ==> ExecuteAll(g, [c]).value.0 == Execute(g, c).value.0
  {
    assert [c][1..] == [];
    if Execute(g, c).Some? {
      assert ExecuteAll(Execute(g, c).value.0, []) == Some((Execute(g, c).value.0, []));
    }
  }

  /** A failed attempt leaves what those commands make of the graph; a single command that fails leaves everything. */
  lemma {:induction false} AttemptApplies(g: Graph, c: Command)
    ensures ExecuteAll(g, Effective(g, c)).Some? && ExecuteAll(g, Effective(g, c)).value.0 == Attempt(g, c).graph
    ensures !c.Meta? && !Attempt(g, c).success ==> Attempt(g, c).graph == g
    decreases c
  {
    if c.Meta? {
      AttemptAllApplies(g, c.commands);
    } else {
      ExecuteOne(g, c);
    }
  }

  lemma {:induction false} AttemptAllApplies(g: Graph, cs: seq<Command>)
    ensures ExecuteAll(g, AllEffective(g, cs)).Some? && ExecuteAll(g, AllEffective(g, cs)).value.0 == AttemptAll(g, cs).graph
    decreases cs
  {
    if cs != [] {
      AttemptApplies(g, cs[0]);
      if !Attempt(g, cs[0]).thrown {
        AttemptAllApplies(Attempt(g, cs[0]).graph, cs[1..]);
        ExecuteConcat(g, Effective(g, cs[0]), AllEffective(Attempt(g, cs[0]).graph, cs[1..]));
      }
    }
  }

  /** A command that refuses changes nothing, and the commands behind it are executed all the same; an error ends them. */
  lemma RefusalGoesOn(g: Graph, c: Command, cs: seq<Command>)
    ensures var r := AttemptAll(g, [Refusal] + cs); r.graph == AttemptAll(g, cs).graph && !r.success
    ensures Attempt(g, c).thrown ==> AttemptAll(g, [c] + cs).graph == Attempt(g, c).graph && !AttemptAll(g, [c] + cs).success
    ensures Attempt(g, c).success ==> AttemptAll(g, [c] + cs).graph == AttemptAll(Attempt(g, c).graph, cs).graph
  {
    assert ([Refusal] + cs)[1..] == cs && ([c] + cs)[1..] == cs;
    AttemptIsExecute(g, c);
    assert Attempt(g, Refusal) == Attempted(g, false, false, Refusal);
  }

  /** What ends them is a single command that cannot be executed, in the graph that it finds. */
  lemma ThrownExactly(g: Graph, c: Command)
    requires !c.Meta?
    ensures Attempt(g, c).thrown <==> Execute(g, c).None? && !c.Refusal?
  {
  }

  lemma {:induction false} ExecuteConcat(g: Graph, a: seq<Command>, b: seq<Command>)
    ensures ExecuteAll(g, a + b).Some? <==>
            ExecuteAll(g, a).Some? && ExecuteAll(ExecuteAll(g, a).value.0, b).Some?
    ensures ExecuteAll(g, a + b).Some? ==>
            ExecuteAll(g, a + b).value.0 == ExecuteAll(ExecuteAll(g, a).value.0, b).value.0
    decreases |a|
  {
    if a == [] {
      assert a + b == b;
    } else {
      assert (a + b)[0] == a[0] && (a + b)[1..] == a[1..] + b;
      if Execute(g, a[0]).Some? {
        ExecuteConcat(Execute(g, a[0]).value.0, a[1..], b);
      }
    }
  }

  // ---------------------------------------------------------------- undoing

  function Undo(g: Graph, c: Command): Option<Graph>
    decreases c
  {
    match c
    case AddFulcrum(id, at, _) =>
      if id !in g.conns || at >= |g.conns[id].fulcrums| then None
      else Some(g.(conns := WithFulcrums(g.conns, id, Remove(g.conns[id].fulcrums, at))))
    case DeleteFulcrum(r) =>
      var undone := UndoRemoval(g.conns, r);
      if undone.None? then None else Some(g.(conns := undone.value))
    case ModifyConnection(id, _, was) =>
      if id !in g.conns then None else Some(g.(conns := g.conns[id := g.conns[id].(active := was)]))
    case AddConnection(from, to, _) =>
      var found := Find(g, from, to);
      if found.None? then None else Some(g.(conns := g.conns - {found.value}))
    case DeleteConnection(from, to, wasActive, wasId, nested) =>
      var undone := UndoRemovals(g.conns[wasId := Conn(from, to, wasActive, [])], nested, |nested|);
      if undone.None? then None else Some(g.(conns := undone.value))
    case Meta(cs) => UndoAll(g, cs)
    case Refusal => None
  }

  function UndoAll(g: Graph, cs: seq<Command>): Option<Graph>
    decreases cs
  {
    if cs == [] then Some(g)
    else
      var rest := UndoAll(g, cs[1..]);
      if rest.None? then None else Undo(rest.value, cs[0])
  }

  // ---------------------------------------------------------------- undo restores the graph

  lemma RemovalUndone(conns: Conns, r: Removal)
    requires Valid(conns) && DoRemoval(conns, r).Some?
    ensures var done := DoRemoval(conns, r).value;
            && Valid(done.0) && done.0.Keys == conns.Keys
            && UndoRemoval(done.0, done.1) == Some(conns)
  {
    var fs := conns[r.id].fulcrums;
    RemoveNumbered(fs, r.at);
    InsertRemoved(fs, r.at);
    var c' := DoRemoval(conns, r).value.0;
    assert WithFulcrums(c', r.id, fs) == conns;
  }

  lemma {:induction false} UndoPrefix(conns: Conns, a: seq<Removal>, b: seq<Removal>, n: nat)
    requires n <= |a| && a <= b
    ensures UndoRemovals(conns, b, n) == UndoRemovals(conns, a, n)
  {
    if n > 0 && UndoRemoval(conns, a[n - 1]).Some? {
      UndoPrefix(UndoRemoval(conns, a[n - 1]).value, a, b, n - 1);
    }
  }

  lemma {:induction false} RemovalsUndone(conns: Conns, rs: seq<Removal>, n: nat)
    requires n <= |rs| && Valid(conns) && DoRemovals(conns, rs, n).Some?
    ensures var done := DoRemovals(conns, rs, n).value;
            && |done.1| == n && Valid(done.0) && done.0.Keys == conns.Keys
            && UndoRemovals(done.0, done.1, n) == Some(conns)
  {
    if n > 0 {
      RemovalsUndone(conns, rs, n - 1);
      var before := DoRemovals(conns, rs, n - 1).value;
      RemovalUndone(before.0, rs[n - 1]);
      var done := DoRemovals(conns, rs, n).value;
      assert done == (DoRemoval(before.0, rs[n - 1]).value.0, before.1 + [DoRemoval(before.0, rs[n - 1]).value.1]);
      UndoPrefix(before.0, before.1, done.1, n - 1);
    }
  }

  /** Deleting all fulcrums from the last to the first never fails. */
  lemma {:induction false} AllRemoved(conns: Conns, id: nat, n: nat)
    requires id in conns && n <= |conns[id].fulcrums|
    ensures var fs := conns[id].fulcrums;
            var done := DoRemovals(conns, AllFulcrums(id, |fs|), n);
            done.Some? && done.value.0 == WithFulcrums(conns, id, fs[..|fs| - n])
  {
    var fs := conns[id].fulcrums;
    if n > 0 {
      AllRemoved(conns, id, n - 1);
      assert Remove(fs[..|fs| - n + 1], |fs| - n) == fs[..|fs| - n];
    } else {
      assert fs[..|fs|] == fs;
    }
  }

  lemma DeleteUndone(g: Graph, c: Command, next: nat)
    requires c.DeleteConnection? && ValidGraph(g) && Execute(g, c).Some?
    ensures var done := Execute(g, c).value;
            && ValidGraph(done.0) && g.next == done.0.next
            && Undo(Graph(done.0.conns, next), done.1) == Some(Graph(g.conns, next))
  {
    var id := Find(g, c.from, c.to).value;
    var fs := g.conns[id].fulcrums;
    var rs := AllFulcrums(id, |fs|);
    AllRemoved(g.conns, id, |fs|);
    RemovalsUndone(g.conns, rs, |rs|);
    var removed := DoRemovals(g.conns, rs, |rs|).value;
    assert fs[..0] == [];
    assert removed.0[id] == Conn(c.from, c.to, g.conns[id].active, []);
    PutBack(removed.0, id);
  }

  lemma PutBack(conns: Conns, id: nat)
    requires id in conns
    ensures (conns - {id})[id := conns[id]] == conns
  {
  }

  lemma LeafUndone(g: Graph, c: Command, next: nat)
    requires !c.Meta? && ValidGraph(g) && Execute(g, c).Some? && Execute(g, c).value.0.next <= next
    ensures var done := Execute(g, c).value;
            && ValidGraph(done.0) && g.next <= done.0.next
            && Undo(Graph(done.0.conns, next), done.1) == Some(Graph(g.conns, next))
  {
    match c
    case AddFulcrum(id, at, shape) =>
      var fs := g.conns[id].fulcrums;
      InsertNumbered(fs, at, shape);
      RemoveInserted(fs, at, shape);
      assert WithFulcrums(WithFulcrums(g.conns, id, Insert(fs, at, shape)), id, fs) == g.conns;
    case DeleteFulcrum(r) => RemovalUndone(g.conns, r);
    case ModifyConnection(id, active, _) =>
      var done := Execute(g, c).value;
      assert done.0.conns[id := done.0.conns[id].(active := done.1.was)] == g.conns;
    case AddConnection(from, to, active) =>
      var done := Execute(g, c).value;
      assert Between(done.0.conns[g.next], from, to) && Valid(done.0.conns);
      assert Find(Graph(done.0.conns, next), from, to) == Some(g.next);
      assert done.0.conns - {g.next} == g.conns;
    case DeleteConnection(_, _, _, _, _) => DeleteUndone(g, c, next);
  }

  /** Undoing a command restores every connection with its id, flag and fulcrums, however deeply the command is
      nested, and whatever ids have been given out since. */
  lemma {:induction false} UndoRestores(g: Graph, c: Command, next: nat)
    requires ValidGraph(g) && Execute(g, c).Some? && Execute(g, c).value.0.next <= next
    ensures var done := Execute(g, c).value;
            && ValidGraph(done.0) && g.next <= done.0.next
            && Undo(Graph(done.0.conns, next), done.1) == Some(Graph(g.conns, next))
    decreases c
  {
    if c.Meta? {
      UndoAllRestores(g, c.commands, next);
    } else {
      LeafUndone(g, c, next);
    }
  }

  lemma {:induction false} NextGrows(g: Graph, c: Command)
    requires Execute(g, c).Some?
    ensures g.next <= Execute(g, c).value.0.next
    decreases c
  {
    if c.Meta? {
      NextGrowsAll(g, c.commands);
    }
  }

  lemma {:induction false} NextGrowsAll(g: Graph, cs: seq<Command>)
    requires ExecuteAll(g, cs).Some?
    ensures g.next <= ExecuteAll(g, cs).value.0.next
    decreases cs
  {
    if cs != [] {
      NextGrows(g, cs[0]);
      NextGrowsAll(Execute(g, cs[0]).value.0, cs[1..]);
    }
  }

  lemma {:induction false} UndoAllRestores(g: Graph, cs: seq<Command>, next: nat)
    requires ValidGraph(g) && ExecuteAll(g, cs).Some? && ExecuteAll(g, cs).value.0.next <= next
    ensures var done := ExecuteAll(g, cs).value;
            && ValidGraph(done.0) && g.next <= done.0.next
            && UndoAll(Graph(done.0.conns, next), done.1) == Some(Graph(g.conns, next))
    decreases cs
  {
    if cs != [] {
      var first := Execute(g, cs[0]).value;
      NextGrowsAll(first.0, cs[1..]);
      UndoRestores(g, cs[0], next);
      UndoAllRestores(first.0, cs[1..], next);
      var rest := ExecuteAll(first.0, cs[1..]).value;
      assert ([first.1] + rest.1)[1..] == rest.1;
    }
  }

  // ---------------------------------------------------------------- executing again

  /** The command without its memory. */
  ghost function Forgetful(c: Command): Command
    decreases c
  {
    match c
    case AddFulcrum(_, _, _) => c
    case DeleteFulcrum(r) => DeleteFulcrum(r.(memory := NoShape()))
    case ModifyConnection(_, _, _) => c.(was := false)
    case AddConnection(_, _, _) => c
    case DeleteConnection(_, _, _, _, _) => c.(wasActive := false, wasId := 0, nested := [])
    case Meta(cs) => Meta(AllForgetful(cs))
    case Refusal => c
  }

  ghost function AllForgetful(cs: seq<Command>): seq<Command>
    decreases cs
  {
    if cs == [] then [] else [Forgetful(cs[0])] + AllForgetful(cs[1..])
  }

  /** What a command remembers makes no difference to its effect. */
  lemma {:induction false} SameEffect(g: Graph, c: Command, d: Command)
    requires Forgetful(c) == Forgetful(d) && Execute(g, c).Some?
    ensures Execute(g, d).Some? && Execute(g, d).value.0 == Execute(g, c).value.0
    decreases c
  {
    if c.Meta? {
      AllSameEffect(g, c.commands, d.commands);
    }
  }

  lemma {:induction false} AllSameEffect(g: Graph, cs: seq<Command>, ds: seq<Command>)
    requires AllForgetful(cs) == AllForgetful(ds) && ExecuteAll(g, cs).Some?
    ensures ExecuteAll(g, ds).Some? && ExecuteAll(g, ds).value.0 == ExecuteAll(g, cs).value.0
    decreases cs
  {
    if cs != [] {
      assert AllForgetful(cs)[0] == Forgetful(cs[0]) && AllForgetful(cs)[1..] == AllForgetful(cs[1..]);
      assert ds != [] && AllForgetful(ds)[0] == Forgetful(ds[0]) && AllForgetful(ds)[1..] == AllForgetful(ds[1..]);
      SameEffect(g, cs[0], ds[0]);
      AllSameEffect(Execute(g, cs[0]).value.0, cs[1..], ds[1..]);
    } else {
      assert ds == [];
    }
  }

  lemma {:induction false} ForgetfulFits(n: nat, c: Command, d: Command)
    requires Forgetful(c) == Forgetful(d) && Fits(n, c)
    ensures Fits(n, d)
    decreases c
  {
    if c.Meta? {
      AllForgetfulFit(n, c.commands, d.commands);
    }
  }

  lemma {:induction false} AllForgetfulFit(n: nat, cs: seq<Command>, ds: seq<Command>)
    requires AllForgetful(cs) == AllForgetful(ds) && AllFit(n, cs)
    ensures AllFit(n, ds)
    decreases cs
  {
    if cs != [] {
      assert AllForgetful(cs)[0] == Forgetful(cs[0]) && AllForgetful(cs)[1..] == AllForgetful(cs[1..]);
      assert ds != [] && AllForgetful(ds)[0] == Forgetful(ds[0]) && AllForgetful(ds)[1..] == AllForgetful(ds[1..]);
      ForgetfulFits(n, cs[0], ds[0]);
      AllForgetfulFit(n, cs[1..], ds[1..]);
    } else {
      assert ds == [];
    }
  }

  /** The command names by id, at any depth, only connections with an id below n; those that are added or deleted are
      named by their ends. */
  ghost predicate Fits(n: nat, c: Command)
    decreases c
  {
    match c
    case AddFulcrum(id, _, _) => id < n
    case DeleteFulcrum(r) => r.id < n
    case ModifyConnection(id, _, _) => id < n
    case Meta(cs) => AllFit(n, cs)
    case _ => true
  }

  ghost predicate AllFit(n: nat, cs: seq<Command>)
    decreases cs
  {
    cs == [] || (Fits(n, cs[0]) && AllFit(n, cs[1..]))
  }

  /** The same connections up to the ids from n on. */
  ghost predicate Alike(n: nat, a: Conns, b: Conns) {
    && (forall i | 0 <= i < n :: i in a <==> i in b)
    && (forall i | 0 <= i < n && i in a :: a[i] == b[i])
    && a.Values == b.Values
  }

  /** If one of them has no other ids, they are the same. */
  lemma AlikeBelow(n: nat, a: Conns, b: Conns)
    requires Alike(n, a, b) && Valid(b) && forall i | i in a :: i < n
    ensures a == b
  {
    forall j | j in b ensures j in a {
      assert b[j] in a.Values;
      var i :| i in a && a[i] == b[j];
      assert b[i] == b[j] && Between(b[i], b[j].from, b[j].to);
    }
  }

  lemma {:induction false} ExecuteForgets(g: Graph, c: Command)
    requires Execute(g, c).Some?
    ensures Forgetful(Execute(g, c).value.1) == Forgetful(c)
    decreases c
  {
    if c.Meta? {
      ExecuteAllForgets(g, c.commands);
    }
  }

  lemma {:induction false} ExecuteAllForgets(g: Graph, cs: seq<Command>)
    requires ExecuteAll(g, cs).Some?
    ensures AllForgetful(ExecuteAll(g, cs).value.1) == AllForgetful(cs)
    decreases cs
  {
    if cs != [] {
      ExecuteForgets(g, cs[0]);
      var first := Execute(g, cs[0]).value;
      ExecuteAllForgets(first.0, cs[1..]);
      var rest := ExecuteAll(first.0, cs[1..]).value;
      assert ([first.1] + rest.1)[1..] == rest.1;
    }
  }

  lemma DeletedConns(g: Graph, c: Command)
    requires c.DeleteConnection? && ValidGraph(g) && Find(g, c.from, c.to).Some?
    ensures Execute(g, c).Some? && Execute(g, c).value.0.conns == g.conns - {Find(g, c.from, c.to).value}
  {
    var id := Find(g, c.from, c.to).value;
    AllRemoved(g.conns, id, |g.conns[id].fulcrums|);
  }

  lemma DeletedValues(conns: Conns, id: nat)
    requires Valid(conns) && id in conns
    ensures (conns - {id}).Values == conns.Values - {conns[id]}
  {
    forall v | v in conns.Values - {conns[id]} ensures v in (conns - {id}).Values {
      var i :| i in conns && conns[i] == v;
      assert i in conns - {id};
    }
    forall v | v in (conns - {id}).Values ensures v in conns.Values && v != conns[id] {
      var i :| i in conns - {id} && conns[i] == v;
      assert i != id && Between(conns[id], conns[id].from, conns[id].to);
    }
  }

  lemma FoundAlike(g: Graph, h: Graph, from: nat, to: nat)
    requires ValidGraph(g) && ValidGraph(h) && g.conns.Values == h.conns.Values
    ensures Find(g, from, to).Some? == Find(h, from, to).Some?
    ensures Find(g, from, to).Some? ==> g.conns[Find(g, from, to).value] == h.conns[Find(h, from, to).value]
  {
    if Find(g, from, to).Some? {
      var v := g.conns[Find(g, from, to).value];
      assert v in h.conns.Values;
      var j :| j in h.conns && h.conns[j] == v;
      assert Between(h.conns[j], from, to);
    }
    if Find(h, from, to).Some? {
      var v := h.conns[Find(h, from, to).value];
      assert v in g.conns.Values;
      var j :| j in g.conns && g.conns[j] == v;
      assert Between(g.conns[j], from, to);
    }
  }

  lemma AddedValues(conns: Conns, id: nat, c: Conn)
    requires id !in conns
    ensures conns[id := c].Values == conns.Values + {c}
  {
    forall v | v in conns.Values + {c} ensures v in conns[id := c].Values {
      if v == c {
        assert conns[id := c][id] == v;
      } else {
        var i :| i in conns && conns[i] == v;
        assert conns[id := c][i] == v;
      }
    }
  }

  /** Changing a connection that both have under the same id. */
  lemma ChangedAlike(n: nat, a: Conns, b: Conns, id: nat, c: Conn)
    requires Alike(n, a, b) && Valid(a) && Valid(b) && id < n && id in a
    ensures id in b && Alike(n, a[id := c], b[id := c])
  {
    ChangedValues(a, id, c);
    ChangedValues(b, id, c);
  }

  lemma ChangedValues(conns: Conns, id: nat, c: Conn)
    requires Valid(conns) && id in conns
    ensures conns[id := c].Values == conns.Values - {conns[id]} + {c}
  {
    DeletedValues(conns, id);
    AddedValues(conns - {id}, id, c);
    assert conns[id := c] == (conns - {id})[id := c];
  }

  /** Deleting a connection that both have between the same ends. */
  lemma DeletedAlike(n: nat, a: Conns, b: Conns, i: nat, j: nat)
    requires Alike(n, a, b) && Valid(a) && Valid(b) && i in a && j in b && a[i] == b[j]
    ensures Alike(n, a - {i}, b - {j})
  {
    DeletedValues(a, i);
    DeletedValues(b, j);
    if i < n {
      assert Between(b[i], b[j].from, b[j].to);
    }
    if j < n {
      assert Between(a[j], a[i].from, a[i].to);
    }
  }

  lemma AddedAlike(n: nat, a: Conns, b: Conns, i: nat, j: nat, c: Conn)
    requires Alike(n, a, b) && n <= i && n <= j && i !in a && j !in b
    ensures Alike(n, a[i := c], b[j := c])
  {
    AddedValues(a, i, c);
    AddedValues(b, j, c);
  }

  lemma LeafAgain(n: nat, g: Graph, h: Graph, c: Command, d: Command)
    requires !c.Meta? && Fits(n, c) && Forgetful(c) == Forgetful(d)
    requires ValidGraph(g) && ValidGraph(h) && n <= g.next && n <= h.next && Alike(n, g.conns, h.conns) && Execute(g, c).Some?
    ensures Execute(h, d).Some? && Alike(n, Execute(g, c).value.0.conns, Execute(h, d).value.0.conns)
  {
    match c
    case AddFulcrum(id, at, shape) =>
      ChangedAlike(n, g.conns, h.conns, id, g.conns[id].(fulcrums := Insert(g.conns[id].fulcrums, at, shape)));
    case DeleteFulcrum(r) =>
      ChangedAlike(n, g.conns, h.conns, r.id, g.conns[r.id].(fulcrums := Remove(g.conns[r.id].fulcrums, r.at)));
    case ModifyConnection(id, active, _) =>
      ChangedAlike(n, g.conns, h.conns, id, g.conns[id].(active := active));
    case AddConnection(from, to, active) =>
      FoundAlike(g, h, from, to);
      AddedAlike(n, g.conns, h.conns, g.next, h.next, Conn(from, to, active, []));
    case DeleteConnection(from, to, _, _, _) =>
      FoundAlike(g, h, from, to);
      DeletedConns(g, c);
      DeletedConns(h, d);
      DeletedAlike(n, g.conns, h.conns, Find(g, from, to).value, Find(h, from, to).value);
  }

  /** A command that names only connections with an id below n by it has the same effect again, whatever it remembers, on
      all graphs that are the same up to the ids from n on. */
  lemma {:induction false} ExecuteAgain(n: nat, g: Graph, h: Graph, c: Command, d: Command)
    requires Fits(n, c) && Forgetful(c) == Forgetful(d)
    requires ValidGraph(g) && ValidGraph(h) && n <= g.next && n <= h.next && Alike(n, g.conns, h.conns) && Execute(g, c).Some?
    ensures Execute(h, d).Some? && Alike(n, Execute(g, c).value.0.conns, Execute(h, d).value.0.conns)
    decreases c
  {
    if c.Meta? {
      ExecuteAllAgain(n, g, h, c.commands, d.commands);
    } else {
      LeafAgain(n, g, h, c, d);
    }
  }

  lemma {:induction false} ExecuteAllAgain(n: nat, g: Graph, h: Graph, cs: seq<Command>, ds: seq<Command>)
    requires AllFit(n, cs) && AllForgetful(cs) == AllForgetful(ds)
    requires ValidGraph(g) && ValidGraph(h) && n <= g.next && n <= h.next && Alike(n, g.conns, h.conns) && ExecuteAll(g, cs).Some?
    ensures ExecuteAll(h, ds).Some? && Alike(n, ExecuteAll(g, cs).value.0.conns, ExecuteAll(h, ds).value.0.conns)
    decreases cs
  {
    if cs != [] {
      assert AllForgetful(cs)[0] == Forgetful(cs[0]) && AllForgetful(cs)[1..] == AllForgetful(cs[1..]);
      assert ds != [] && AllForgetful(ds)[0] == Forgetful(ds[0]) && AllForgetful(ds)[1..] == AllForgetful(ds[1..]);
      ExecuteAgain(n, g, h, cs[0], ds[0]);
      UndoRestores(g, cs[0], Execute(g, cs[0]).value.0.next);
      UndoRestores(h, ds[0], Execute(h, ds[0]).value.0.next);
      ExecuteAllAgain(n, Execute(g, cs[0]).value.0, Execute(h, ds[0]).value.0, cs[1..], ds[1..]);
    } else {
      assert ds == [];
    }
  }

  // ---------------------------------------------------------------- ids are not given out again

  /** No connection has an id from n up to m. */
  ghost predicate Gap(g: Graph, n: nat, m: nat) {
    m <= g.next && forall i | i in g.conns :: i < n || m <= i
  }

  lemma LeafAcrossGap(g: Graph, n: nat, m: nat, c: Command)
    requires !c.Meta? && ValidGraph(g) && Gap(g, n, m) && Fits(m, c) && Execute(g, c).Some?
    ensures Fits(n, c) && Gap(Execute(g, c).value.0, n, m)
  {
    if c.DeleteConnection? {
      DeletedConns(g, c);
    }
  }

  /** A command that succeeds where there are no connections with the ids from n up to m names none of them. */
  lemma {:induction false} AcrossGap(g: Graph, n: nat, m: nat, c: Command)
    requires ValidGraph(g) && Gap(g, n, m) && Fits(m, c) && Execute(g, c).Some?
    ensures Fits(n, c) && Gap(Execute(g, c).value.0, n, m)
    decreases c
  {
    if c.Meta? {
      AllAcrossGap(g, n, m, c.commands);
    } else {
      LeafAcrossGap(g, n, m, c);
    }
  }

  lemma {:induction false} AllAcrossGap(g: Graph, n: nat, m: nat, cs: seq<Command>)
    requires ValidGraph(g) && Gap(g, n, m) && AllFit(m, cs) && ExecuteAll(g, cs).Some?
    ensures AllFit(n, cs) && Gap(ExecuteAll(g, cs).value.0, n, m)
    decreases cs
  {
    if cs != [] {
      AcrossGap(g, n, m, cs[0]);
      UndoRestores(g, cs[0], Execute(g, cs[0]).value.0.next);
      AllAcrossGap(Execute(g, cs[0]).value.0, n, m, cs[1..]);
    }
  }

  lemma {:induction false} FitsMore(n: nat, m: nat, c: Command)
    requires Fits(n, c) && n <= m
    ensures Fits(m, c)
    decreases c
  {
    if c.Meta? {
      AllFitMore(n, m, c.commands);
    }
  }

  lemma {:induction false} AllFitMore(n: nat, m: nat, cs: seq<Command>)
    requires AllFit(n, cs) && n <= m
    ensures AllFit(m, cs)
    decreases cs
  {
    if cs != [] {
      FitsMore(n, m, cs[0]);
      AllFitMore(n, m, cs[1..]);
    }
  }

  /** A command that succeeds names only ids that have been given out. */
  lemma {:induction false} NamesGiven(g: Graph, c: Command)
    requires ValidGraph(g) && Execute(g, c).Some?
    ensures Fits(Execute(g, c).value.0.next, c)
    decreases c
  {
    if c.Meta? {
      AllNameGiven(g, c.commands);
    }
  }

  lemma {:induction false} AllNameGiven(g: Graph, cs: seq<Command>)
    requires ValidGraph(g) && ExecuteAll(g, cs).Some?
    ensures AllFit(ExecuteAll(g, cs).value.0.next, cs)
    decreases cs
  {
    if cs != [] {
      var first := Execute(g, cs[0]).value.0;
      NamesGiven(g, cs[0]);
      UndoRestores(g, cs[0], first.next);
      AllNameGiven(first, cs[1..]);
      NextGrowsAll(first, cs[1..]);
      FitsMore(first.next, ExecuteAll(g, cs).value.0.next, cs[0]);
    }
  }
}

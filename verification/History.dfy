/**
 The undo history: the graph is always what the commands that are done make of the graph at the start, and the
 history knows exactly whether it is what was saved last.
 */
module History {
  import opened TokenStates
  import opened Commands

  /** A command in the history.  Every executed command object has its own stamp.  The flags say that the saved state
      is the one after undoing, or before redoing, the command. */
  datatype Entry = Entry(command: Command, stamp: nat, afterSave: bool, beforeSave: bool)

  /** `saved` are the stamps of the commands that were done when the state was saved last. */
  datatype History = History(graph: Graph, done: seq<Entry>, undone: seq<Entry>, dirty: bool, stamps: nat, saved: seq<nat>)

  function Stamps(es: seq<Entry>): (r: seq<nat>)
    ensures |r| == |es| && forall k {:trigger r[k]} | 0 <= k < |es| :: r[k] == es[k].stamp
  {
    seq(|es|, k requires 0 <= k < |es| => es[k].stamp)
  }

  function CommandsOf(es: seq<Entry>): (r: seq<Command>)
    ensures |r| == |es| && forall k {:trigger r[k]} | 0 <= k < |es| :: r[k] == es[k].command
  {
    seq(|es|, k requires 0 <= k < |es| => es[k].command)
  }

  function Start(g: Graph): History {
    History(g, [], [], false, 0, [])
  }

  function Do(s: History, c: Command): Option<History> {
    var r := Execute(s.graph, c);
    if r.None? then None
    else Some(s.(graph := r.value.0, done := s.done + [Entry(r.value.1, s.stamps, !s.dirty, false)], undone := [],
                 dirty := true, stamps := s.stamps + 1))
  }

  function UndoLast(s: History): Option<History> {
    if s.done == [] then Some(s)
    else
      var last := s.done[|s.done| - 1];
      var r := Undo(s.graph, last.command);
      if r.None? then None
      else Some(s.(graph := r.value, done := s.done[..|s.done| - 1], undone := s.undone + [last], dirty := !last.afterSave))
  }

  function RedoLast(s: History): Option<History> {
    if s.undone == [] then Some(s)
    else
      var last := s.undone[|s.undone| - 1];
      var r := Execute(s.graph, last.command);
      if r.None? then None
      else Some(s.(graph := r.value.0, undone := s.undone[..|s.undone| - 1],
                   done := s.done + [last.(command := r.value.1)], dirty := !last.beforeSave))
  }

  function Unflagged(es: seq<Entry>): (r: seq<Entry>)
    ensures |r| == |es| && forall k {:trigger r[k]} | 0 <= k < |es| :: r[k] == es[k].(afterSave := false, beforeSave := false)
  {
    seq(|es|, k requires 0 <= k < |es| => es[k].(afterSave := false, beforeSave := false))
  }

  function LastBefore(es: seq<Entry>): seq<Entry> {
    if es == [] then es else es[|es| - 1 := es[|es| - 1].(beforeSave := true)]
  }

  function LastAfter(es: seq<Entry>): seq<Entry> {
    if es == [] then es else es[|es| - 1 := es[|es| - 1].(afterSave := true)]
  }

  function Save(s: History): History {
    s.(dirty := false, done := LastBefore(Unflagged(s.done)), undone := LastAfter(Unflagged(s.undone)), saved := Stamps(s.done))
  }

  datatype Step = Doing(command: Command) | Undoing | Redoing | Saving

  function After(s: History, e: Step): Option<History> {
    match e
    case Doing(c) => Do(s, c)
    case Undoing => UndoLast(s)
    case Redoing => RedoLast(s)
    case Saving => Some(Save(s))
  }

  ghost predicate Leads(s: History, es: seq<Step>, s': History)
    decreases |es|
  {
    if es == [] then s' == s
    else After(s, es[0]).Some? && Leads(After(s, es[0]).value, es[1..], s')
  }

  // ---------------------------------------------------------------- the history refines replay

  /** What the commands that are done make of g0. */
  ghost function Replay(g0: Graph, done: seq<Entry>): Option<(Graph, seq<Command>)> {
    ExecuteAll(g0, CommandsOf(done))
  }

  /** Undoing c leads from the first to the second connections, whatever ids have been given out since. */
  ghost predicate Undoes(c: Command, conns: Conns, before: Conns, bound: nat) {
    forall next: nat | bound <= next :: Undo(Graph(conns, next), c) == Some(Graph(before, next))
  }

  /** Executing c has led from the first to the second connections, when fewer ids had been given out. */
  ghost predicate Led(c: Command, low: nat, before: Conns, conns: Conns, bound: nat) {
    exists next: nat :: low <= next <= bound && LedFrom(c, Graph(before, next), conns)
  }

  ghost predicate LedFrom(c: Command, g: Graph, conns: Conns) {
    ValidGraph(g) && Execute(g, c).Some? && Execute(g, c).value.0.conns == conns
  }

  /** Undoing one command after the other leads back to the connections at the start, and every command has led forward
      from there. */
  ghost predicate Chain(g0: Graph, g: Graph, done: seq<Entry>)
    decreases |done|
  {
    && ValidGraph(g) && g0.next <= g.next
    && if done == [] then g.conns == g0.conns
       else
         var last := done[|done| - 1].command;
         && Undo(g, last).Some? && Fits(g.next, last)
         && Undoes(last, g.conns, Undo(g, last).value.conns, g.next)
         && Led(last, g0.next, Undo(g, last).value.conns, g.conns, g.next)
         && Chain(g0, Graph(Undo(g, last).value.conns, g.next), done[..|done| - 1])
  }

  lemma {:induction false} ChainLater(g0: Graph, g: Graph, done: seq<Entry>, next: nat)
    requires Chain(g0, g, done) && g.next <= next
    ensures Chain(g0, Graph(g.conns, next), done)
    decreases |done|
  {
    if done != [] {
      var last := done[|done| - 1].command;
      assert Graph(g.conns, g.next) == g;
      ChainLater(g0, Graph(Undo(g, last).value.conns, g.next), done[..|done| - 1], next);
      FitsMore(g.next, next, last);
    }
  }

  /** Executing one more command. */
  lemma ChainDo(g0: Graph, g: Graph, done: seq<Entry>, c: Command, e: Entry)
    requires Chain(g0, g, done) && Execute(g, c).Some? && e.command == Execute(g, c).value.1
    ensures Chain(g0, Execute(g, c).value.0, done + [e])
  {
    var h := Execute(g, c).value.0;
    UndoRestores(g, c, h.next);
    assert Undoes(e.command, h.conns, g.conns, h.next) by {
      forall next: nat | h.next <= next ensures Undo(Graph(h.conns, next), e.command) == Some(Graph(g.conns, next)) {
        UndoRestores(g, c, next);
      }
    }
    assert Graph(h.conns, h.next) == h && Graph(g.conns, g.next) == g;
    ExecuteForgets(g, c);
    SameEffect(g, c, e.command);
    assert LedFrom(e.command, Graph(g.conns, g.next), h.conns);
    NamesGiven(g, c);
    ForgetfulFits(h.next, c, e.command);
    ChainLater(g0, g, done, h.next);
    assert (done + [e])[..|done|] == done;
  }

  lemma ChainUndo(g0: Graph, g: Graph, before: seq<Entry>, last: Entry)
    requires Chain(g0, g, before + [last])
    ensures Undo(g, last.command).Some? && Undo(g, last.command).value.next == g.next && Fits(g.next, last.command)
    ensures Chain(g0, Undo(g, last.command).value, before)
    ensures Led(last.command, g0.next, Undo(g, last.command).value.conns, g.conns, g.next)
  {
    var done := before + [last];
    assert done[|done| - 1] == last && done[..|done| - 1] == before;
    assert Graph(g.conns, g.next) == g;
    assert Undo(g, last.command) == Some(Graph(Undo(g, last.command).value.conns, g.next));
  }

  lemma ReplayMore(g0: Graph, done: seq<Entry>, e: Entry)
    requires Replay(g0, done).Some?
    ensures Replay(g0, done + [e]).Some? == Execute(Replay(g0, done).value.0, e.command).Some?
    ensures Replay(g0, done + [e]).Some? ==>
              Replay(g0, done + [e]).value.0 == Execute(Replay(g0, done).value.0, e.command).value.0
  {
    var r := Replay(g0, done).value.0;
    assert CommandsOf(done + [e]) == CommandsOf(done) + [e.command];
    ExecuteConcat(g0, CommandsOf(done), [e.command]);
    assert [e.command][1..] == [];
    if Execute(r, e.command).Some? {
      assert ExecuteAll(Execute(r, e.command).value.0, []) == Some((Execute(r, e.command).value.0, []));
    }
  }

  /** All commands name by id only connections with an id below n. */
  ghost predicate EntriesFit(n: nat, es: seq<Entry>) {
    forall k | 0 <= k < |es| :: Fits(n, es[k].command)
  }

  /** If the commands name only connections that were there at the start, the replay succeeds with the same connections, up
      to the ids of later ones. */
  lemma {:induction false} ChainReplays(g0: Graph, g: Graph, done: seq<Entry>)
    requires ValidGraph(g0) && Chain(g0, g, done) && EntriesFit(g0.next, done)
    ensures Replay(g0, done).Some?
    ensures var r := Replay(g0, done).value.0;
            ValidGraph(r) && g0.next <= r.next && Alike(g0.next, g.conns, r.conns)
    decreases |done|
  {
    if done == [] {
      assert CommandsOf(done) == [];
    } else {
      var before, last := done[..|done| - 1], done[|done| - 1];
      assert done == before + [last];
      ChainUndo(g0, g, before, last);
      var b := Undo(g, last.command).value;
      ChainReplays(g0, b, before);
      var r := Replay(g0, before).value.0;
      var next: nat :| g0.next <= next <= g.next && LedFrom(last.command, Graph(b.conns, next), g.conns);
      ExecuteAgain(g0.next, Graph(b.conns, next), r, last.command, last.command);
      ReplayMore(g0, before, last);
      UndoRestores(r, last.command, Execute(r, last.command).value.0.next);
    }
  }

  // ---------------------------------------------------------------- what can be redone

  /** The commands can be redone one after the other, at least up to the first that names a later connection. */
  ghost predicate Ahead(n: nat, g: Graph, undone: seq<Entry>)
    decreases |undone|
  {
    undone == [] ||
    var top := undone[|undone| - 1].command;
    Fits(n, top) ==> Execute(g, top).Some? && Ahead(n, Execute(g, top).value.0, undone[..|undone| - 1])
  }

  lemma {:induction false} AheadAlike(n: nat, g: Graph, h: Graph, undone: seq<Entry>)
    requires Ahead(n, g, undone) && ValidGraph(g) && ValidGraph(h) && n <= g.next && n <= h.next && Alike(n, g.conns, h.conns)
    ensures Ahead(n, h, undone)
    decreases |undone|
  {
    if undone != [] {
      var top := undone[|undone| - 1].command;
      if Fits(n, top) {
        ExecuteAgain(n, g, h, top, top);
        UndoRestores(g, top, Execute(g, top).value.0.next);
        UndoRestores(h, top, Execute(h, top).value.0.next);
        AheadAlike(n, Execute(g, top).value.0, Execute(h, top).value.0, undone[..|undone| - 1]);
      }
    }
  }

  /** What has just been undone can be redone. */
  lemma AheadUndo(n: nat, b: Graph, g: Graph, last: Entry, undone: seq<Entry>)
    requires ValidGraph(b) && ValidGraph(g) && n <= b.next == g.next && Fits(n, last.command)
    requires Led(last.command, n, b.conns, g.conns, g.next) && Ahead(n, g, undone)
    ensures Ahead(n, b, undone + [last])
  {
    var next: nat :| n <= next <= g.next && LedFrom(last.command, Graph(b.conns, next), g.conns);
    ExecuteAgain(n, Graph(b.conns, next), b, last.command, last.command);
    var x := Execute(b, last.command).value.0;
    UndoRestores(b, last.command, x.next);
    AheadAlike(n, g, x, undone);
    assert (undone + [last])[..|undone|] == undone;
  }

  lemma {:induction false} SameAhead(n: nat, g: Graph, a: seq<Entry>, b: seq<Entry>)
    requires CommandsOf(a) == CommandsOf(b) && Ahead(n, g, a)
    ensures Ahead(n, g, b)
    decreases |a|
  {
    assert |CommandsOf(a)| == |CommandsOf(b)|;
    if a != [] {
      SameFront(a, b);
      var top := a[|a| - 1].command;
      if Fits(n, top) {
        SameAhead(n, Execute(g, top).value.0, a[..|a| - 1], b[..|a| - 1]);
      }
    }
  }

  lemma SameFront(a: seq<Entry>, b: seq<Entry>)
    requires CommandsOf(a) == CommandsOf(b) && a != []
    ensures |b| == |a| && b[|a| - 1].command == a[|a| - 1].command
    ensures CommandsOf(a[..|a| - 1]) == CommandsOf(b[..|a| - 1])
  {
    assert |CommandsOf(a)| == |CommandsOf(b)|;
    assert CommandsOf(a)[|a| - 1] == CommandsOf(b)[|a| - 1];
    assert CommandsOf(a[..|a| - 1]) == CommandsOf(a)[..|a| - 1];
    assert CommandsOf(b[..|a| - 1]) == CommandsOf(b)[..|a| - 1];
  }

  lemma {:induction false} SameChain(g0: Graph, g: Graph, a: seq<Entry>, b: seq<Entry>)
    requires CommandsOf(a) == CommandsOf(b) && Chain(g0, g, a)
    ensures Chain(g0, g, b)
    decreases |a|
  {
    assert |CommandsOf(a)| == |CommandsOf(b)|;
    if a != [] {
      SameFront(a, b);
      SameChain(g0, Graph(Undo(g, a[|a| - 1].command).value.conns, g.next), a[..|a| - 1], b[..|a| - 1]);
    }
  }

  lemma SameFit(n: nat, a: seq<Entry>, b: seq<Entry>)
    requires CommandsOf(a) == CommandsOf(b)
    ensures EntriesFit(n, a) == EntriesFit(n, b)
  {
    assert |CommandsOf(a)| == |CommandsOf(b)|;
    forall k | 0 <= k < |a| ensures a[k].command == b[k].command {
      assert CommandsOf(a)[k] == CommandsOf(b)[k];
    }
  }

  // ---------------------------------------------------------------- every history

  ghost predicate Inv(g0: Graph, s: History) {
    && Chain(g0, s.graph, s.done)
    && EntriesFit(s.graph.next, s.undone)
    && (EntriesFit(g0.next, s.done) ==> Ahead(g0.next, s.graph, s.undone))
  }

  lemma DoInv(g0: Graph, s: History, c: Command)
    requires Inv(g0, s) && Do(s, c).Some?
    ensures Inv(g0, Do(s, c).value)
  {
    var e := Entry(Execute(s.graph, c).value.1, s.stamps, !s.dirty, false);
    ChainDo(g0, s.graph, s.done, c, e);
  }

  /** Undoing never fails. */
  lemma UndoInv(g0: Graph, s: History)
    requires Inv(g0, s)
    ensures UndoLast(s).Some? && Inv(g0, UndoLast(s).value)
  {
    if s.done != [] {
      var before, last := s.done[..|s.done| - 1], s.done[|s.done| - 1];
      assert s.done == before + [last];
      ChainUndo(g0, s.graph, before, last);
      if EntriesFit(g0.next, before) && Fits(g0.next, last.command) {
        assert EntriesFit(g0.next, s.done);
        AheadUndo(g0.next, Undo(s.graph, last.command).value, s.graph, last, s.undone);
      } else if EntriesFit(g0.next, before) {
        assert (s.undone + [last])[|s.undone|] == last;
      }
    }
  }

  /** Redoing can fail, but if it does not, all is in order again. */
  lemma RedoInv(g0: Graph, s: History)
    requires Inv(g0, s) && RedoLast(s).Some?
    ensures Inv(g0, RedoLast(s).value)
  {
    if s.undone != [] {
      var rest, last := s.undone[..|s.undone| - 1], s.undone[|s.undone| - 1];
      var h := Execute(s.graph, last.command).value.0;
      var e := last.(command := Execute(s.graph, last.command).value.1);
      ChainDo(g0, s.graph, s.done, last.command, e);
      NextGrows(s.graph, last.command);
      RestFits(s.undone, s.graph.next, h.next);
      if EntriesFit(g0.next, s.done + [e]) {
        RedoneFits(g0.next, s.done, last, s.graph, e);
      }
    }
  }

  lemma RestFits(undone: seq<Entry>, n: nat, m: nat)
    requires undone != [] && EntriesFit(n, undone) && n <= m
    ensures EntriesFit(m, undone[..|undone| - 1])
  {
    var rest := undone[..|undone| - 1];
    forall k | 0 <= k < |rest| ensures Fits(m, rest[k].command) {
      assert rest[k] == undone[k];
      FitsMore(n, m, rest[k].command);
    }
  }

  lemma RedoneFits(n: nat, done: seq<Entry>, last: Entry, g: Graph, e: Entry)
    requires Execute(g, last.command).Some? && e.command == Execute(g, last.command).value.1
    ensures EntriesFit(n, done + [e]) <==> EntriesFit(n, done) && Fits(n, last.command)
  {
    ExecuteForgets(g, last.command);
    if Fits(n, last.command) {
      ForgetfulFits(n, last.command, e.command);
    }
    if EntriesFit(n, done + [e]) {
      assert (done + [e])[|done|] == e;
      ForgetfulFits(n, e.command, last.command);
      forall k | 0 <= k < |done| ensures Fits(n, done[k].command) {
        assert (done + [e])[k] == done[k];
      }
    }
  }

  lemma SaveInv(g0: Graph, s: History)
    requires Inv(g0, s)
    ensures Inv(g0, Save(s))
  {
    assert CommandsOf(Save(s).done) == CommandsOf(s.done);
    assert CommandsOf(Save(s).undone) == CommandsOf(s.undone);
    SameChain(g0, s.graph, s.done, Save(s).done);
    SameFit(s.graph.next, s.undone, Save(s).undone);
    SameFit(g0.next, s.done, Save(s).done);
    if EntriesFit(g0.next, s.done) {
      SameAhead(g0.next, s.graph, s.undone, Save(s).undone);
    }
  }

  lemma StepInv(g0: Graph, s: History, e: Step)
    requires Inv(g0, s) && After(s, e).Some?
    ensures Inv(g0, After(s, e).value)
  {
    match e
    case Doing(c) => DoInv(g0, s, c);
    case Undoing => UndoInv(g0, s);
    case Redoing => RedoInv(g0, s);
    case Saving => SaveInv(g0, s);
  }

  lemma {:induction false} LeadsInv(g0: Graph, s: History, es: seq<Step>, s': History)
    requires Inv(g0, s) && Leads(s, es, s')
    ensures Inv(g0, s')
    decreases |es|
  {
    if es != [] {
      StepInv(g0, s, es[0]);
      LeadsInv(g0, After(s, es[0]).value, es[1..], s');
    }
  }

  /** After any run of commands, undo, redo and saving: undoing does not fail, and if the commands that are done name by id
      only connections that were there at the start, the graph is what they, nested to any depth, make of the graph at the
      start, up to the ids of the connections that have been added. */
  lemma HistoryRefinesReplay(g0: Graph, es: seq<Step>, s: History)
    requires ValidGraph(g0) && Leads(Start(g0), es, s)
    ensures ValidGraph(s.graph) && UndoLast(s).Some?
    ensures EntriesFit(g0.next, s.done) ==>
              Replay(g0, s.done).Some? && Alike(g0.next, s.graph.conns, Replay(g0, s.done).value.0.conns)
  {
    LeadsInv(g0, Start(g0), es, s);
    UndoInv(g0, s);
    if EntriesFit(g0.next, s.done) {
      ChainReplays(g0, s.graph, s.done);
    }
  }

  /** Without added connections, the ids are the same, too. */
  lemma HistoryIsReplay(g0: Graph, es: seq<Step>, s: History)
    requires ValidGraph(g0) && Leads(Start(g0), es, s) && s.graph.next == g0.next
    ensures Replay(g0, s.done).Some? && s.graph.conns == Replay(g0, s.done).value.0.conns
  {
    LeadsInv(g0, Start(g0), es, s);
    AllFitChain(g0, s.graph, s.done);
    ChainReplays(g0, s.graph, s.done);
    AlikeBelow(g0.next, s.graph.conns, Replay(g0, s.done).value.0.conns);
  }

  lemma {:induction false} AllFitChain(g0: Graph, g: Graph, done: seq<Entry>)
    requires Chain(g0, g, done)
    ensures EntriesFit(g.next, done)
    decreases |done|
  {
    if done != [] {
      var before, last := done[..|done| - 1], done[|done| - 1];
      AllFitChain(g0, Graph(Undo(g, last.command).value.conns, g.next), before);
      assert forall k | 0 <= k < |before| :: before[k] == done[k];
    }
  }

  // ---------------------------------------------------------------- when redoing cannot fail

  ghost predicate BackAndForth(es: seq<Step>) {
    forall k | 0 <= k < |es| :: es[k] == Undoing || es[k] == Redoing
  }

  /** However one goes back and forth from here, nothing fails. */
  ghost predicate NeverFails(s: History) {
    forall es: seq<Step>, s': History | BackAndForth(es) && Leads(s, es, s') :: UndoLast(s').Some? && RedoLast(s').Some?
  }

  /** All commands that are known name by id only connections with an id below n. */
  ghost predicate AllKnownFit(n: nat, s: History) {
    EntriesFit(n, s.done) && EntriesFit(n, s.undone)
  }

  lemma FittingStep(g0: Graph, s: History, e: Step)
    requires Inv(g0, s) && AllKnownFit(g0.next, s) && (e == Undoing || e == Redoing)
    ensures After(s, e).Some? && Inv(g0, After(s, e).value) && AllKnownFit(g0.next, After(s, e).value)
  {
    if e == Undoing {
      UndoInv(g0, s);
    } else {
      if s.undone != [] {
        var last := s.undone[|s.undone| - 1];
        assert Execute(s.graph, last.command).Some?;
        RedoneFits(g0.next, s.done, last, s.graph, last.(command := Execute(s.graph, last.command).value.1));
      }
      RedoInv(g0, s);
    }
  }

  lemma {:induction false} FittingLeads(g0: Graph, s: History, es: seq<Step>, s': History)
    requires Inv(g0, s) && AllKnownFit(g0.next, s) && BackAndForth(es) && Leads(s, es, s')
    ensures Inv(g0, s') && AllKnownFit(g0.next, s')
    decreases |es|
  {
    if es != [] {
      FittingStep(g0, s, es[0]);
      FittingLeads(g0, After(s, es[0]).value, es[1..], s');
    }
  }

  lemma NeverFailsLater(s: History, e: Step)
    requires NeverFails(s) && (e == Undoing || e == Redoing) && After(s, e).Some?
    ensures NeverFails(After(s, e).value)
  {
    forall es: seq<Step>, s': History | BackAndForth(es) && Leads(After(s, e).value, es, s')
      ensures UndoLast(s').Some? && RedoLast(s').Some?
    {
      LeadsMore(s, e, es, s');
      assert BackAndForth([e] + es);
    }
  }

  lemma NeverFailsNow(s: History)
    requires NeverFails(s)
    ensures UndoLast(s).Some? && RedoLast(s).Some?
  {
    assert BackAndForth([]) && Leads(s, [], s);
  }

  /** Going back to the start keeps all commands. */
  lemma {:induction false} Rewound(g0: Graph, s: History) returns (s0: History)
    requires Inv(g0, s) && NeverFails(s)
    ensures Inv(g0, s0) && NeverFails(s0) && s0.done == [] && s0.graph.next == s.graph.next
    ensures forall n: nat :: EntriesFit(n, s0.undone) ==> AllKnownFit(n, s)
    decreases |s.done|
  {
    s0 := s;
    if s.done != [] {
      UndoInv(g0, s);
      var s1 := UndoLast(s).value;
      var before, last := s.done[..|s.done| - 1], s.done[|s.done| - 1];
      assert s.done == before + [last];
      ChainUndo(g0, s.graph, before, last);
      NeverFailsLater(s, Undoing);
      s0 := Rewound(g0, s1);
      forall n: nat | AllKnownFit(n, s1) ensures AllKnownFit(n, s) {
        MovedFit(n, before, last, s.undone);
      }
    }
  }

  lemma MovedFit(n: nat, before: seq<Entry>, last: Entry, undone: seq<Entry>)
    requires EntriesFit(n, before) && EntriesFit(n, undone + [last])
    ensures EntriesFit(n, before + [last]) && EntriesFit(n, undone)
  {
    assert (undone + [last])[|undone|] == last;
    forall k | 0 <= k < |undone| ensures Fits(n, undone[k].command) {
      assert (undone + [last])[k] == undone[k];
    }
  }

  /** Redoing everything, when the ids from n up to m have been given out but are not used any more. */
  lemma {:induction false} RedoneAcrossGap(s: History, n: nat, m: nat)
    requires NeverFails(s) && ValidGraph(s.graph) && Gap(s.graph, n, m) && EntriesFit(m, s.undone)
    ensures EntriesFit(n, s.undone)
    decreases |s.undone|
  {
    if s.undone != [] {
      NeverFailsNow(s);
      var rest, last := s.undone[..|s.undone| - 1], s.undone[|s.undone| - 1];
      AcrossGap(s.graph, n, m, last.command);
      UndoRestores(s.graph, last.command, Execute(s.graph, last.command).value.0.next);
      NeverFailsLater(s, Redoing);
      assert forall k | 0 <= k < |rest| :: rest[k] == s.undone[k];
      RedoneAcrossGap(RedoLast(s).value, n, m);
    }
  }

  /** After any run, also one that adds connections and names them by their ids: no going back and forth can fail if and only
      if none of the commands that are known names by id, at any depth, a connection that has been added since the start. */
  lemma RedoNeverFailsExactly(g0: Graph, es: seq<Step>, s: History)
    requires ValidGraph(g0) && Leads(Start(g0), es, s)
    ensures NeverFails(s) <==> AllKnownFit(g0.next, s)
  {
    LeadsInv(g0, Start(g0), es, s);
    if AllKnownFit(g0.next, s) {
      forall us: seq<Step>, s': History | BackAndForth(us) && Leads(s, us, s') ensures UndoLast(s').Some? && RedoLast(s').Some? {
        FittingLeads(g0, s, us, s');
        FittingStep(g0, s', Undoing);
        FittingStep(g0, s', Redoing);
      }
    } else if NeverFails(s) {
      var s0 := Rewound(g0, s);
      RedoneAcrossGap(s0, g0.next, s0.graph.next);
    }
  }

  /** Such a run: a connection that is added again gets another id, and the command that named it cannot be redone. */
  lemma MixingBreaksRedo()
    ensures exists g0: Graph, es: seq<Step>, s: History :: ValidGraph(g0) && Leads(Start(g0), es, s) && !NeverFails(s)
  {
    var g0 := Graph(map[], 0);
    var add, alter := AddConnection(0, 1, true), ModifyConnection(0, false, false);
    var c := Conn(0, 1, true, []);
    var s1 := Do(Start(g0), add).value;
    assert s1.graph == Graph(map[0 := c], 1);
    var s2 := Do(s1, alter).value;
    LeadsMore(s1, Doing(alter), [], s2);
    LeadsMore(Start(g0), Doing(add), [Doing(alter)], s2);
    RedoNeverFailsExactly(g0, [Doing(add)] + [Doing(alter)], s2);
    assert !Fits(0, s2.done[1].command);
  }

  lemma LeadsMore(s: History, e: Step, es: seq<Step>, s': History)
    requires After(s, e).Some? && Leads(After(s, e).value, es, s')
    ensures Leads(s, [e] + es, s')
  {
    assert ([e] + es)[1..] == es;
  }

  // ---------------------------------------------------------------- the dirty flag

  /** All commands that are known, those that can be redone last. */
  function Timeline(s: History): seq<Entry> {
    s.done + Reversed(s.undone)
  }

  function Reversed(es: seq<Entry>): (r: seq<Entry>)
    ensures |r| == |es| && forall k {:trigger r[k]} | 0 <= k < |es| :: r[k] == es[|es| - 1 - k]
  {
    seq(|es|, k requires 0 <= k < |es| => es[|es| - 1 - k])
  }

  /** The history is a list of commands with a cursor: undoing and redoing move the cursor, saving does not, and a new command
      replaces what is behind it. */
  lemma CursorMoves(s: History, e: Step)
    requires After(s, e).Some?
    ensures var s', n, k := After(s, e).value, |s.done|, |s.done| + |s.undone|;
            match e
            case Doing(_) => s'.undone == [] && Stamps(s'.done) == Stamps(s.done) + [s.stamps]
            case Undoing => Stamps(Timeline(s')) == Stamps(Timeline(s)) && |s'.done| == if n > 0 then n - 1 else 0
            case Redoing => Stamps(Timeline(s')) == Stamps(Timeline(s)) && |s'.done| == if n < k then n + 1 else n
            case Saving => Stamps(Timeline(s')) == Stamps(Timeline(s)) && |s'.done| == n && s'.graph == s.graph
  {
    match e
    case Doing(_) =>
    case Undoing => UndoMoves(s);
    case Redoing => RedoMoves(s);
    case Saving => SaveMoves(s);
  }

  lemma UndoMoves(s: History)
    requires UndoLast(s).Some?
    ensures Stamps(Timeline(UndoLast(s).value)) == Stamps(Timeline(s))
  {
    if s.done != [] {
      assert Timeline(UndoLast(s).value) == Timeline(s);
    }
  }

  lemma RedoMoves(s: History)
    requires RedoLast(s).Some?
    ensures Stamps(Timeline(RedoLast(s).value)) == Stamps(Timeline(s))
  {
    if s.undone != [] {
      var s', last := RedoLast(s).value, s.undone[|s.undone| - 1];
      var t, t' := Timeline(s), Timeline(s');
      assert s.undone == s'.undone + [last];
      forall k {:trigger t'[k]} | 0 <= k < |t'| ensures t'[k].stamp == t[k].stamp {
        RedoTimeline(s.done, s'.undone, last, s'.done[|s.done|], k);
      }
    }
  }

  lemma SaveMoves(s: History)
    ensures Stamps(Timeline(Save(s))) == Stamps(Timeline(s))
  {
    var t, t' := Timeline(s), Timeline(Save(s));
    forall k {:trigger t'[k]} | 0 <= k < |t'| ensures t'[k].stamp == t[k].stamp {
      SaveFlags(s, k);
    }
  }

  /** The first k commands of the timeline are those that were done at the last save. */
  ghost predicate SavedAt(t: seq<Entry>, k: nat, saved: seq<nat>)
    requires k <= |t|
  {
    Stamps(t[..k]) == saved
  }

  ghost predicate FlagsExact(t: seq<Entry>, saved: seq<nat>) {
    forall k {:trigger t[k]} | 0 <= k < |t| ::
      t[k].afterSave == SavedAt(t, k, saved) && t[k].beforeSave == SavedAt(t, k + 1, saved)
  }

  ghost predicate DirtyInv(s: History) {
    && s.dirty == (Stamps(s.done) != s.saved)
    && FlagsExact(Timeline(s), s.saved)
    && forall x | x in s.saved :: x < s.stamps
  }

  lemma StampsPrefix(a: seq<Entry>, b: seq<Entry>, k: nat)
    requires k <= |a| && k <= |b| && forall j | 0 <= j < k :: a[j].stamp == b[j].stamp
    ensures Stamps(a[..k]) == Stamps(b[..k])
  {
  }

  lemma FreshStamp(es: seq<Entry>, k: nat, saved: seq<nat>)
    requires k < |es| && forall x | x in saved :: x < es[k].stamp
    ensures Stamps(es) != saved
  {
    assert Stamps(es)[k] in Stamps(es);
  }

  lemma DirtyDo(s: History, c: Command)
    requires DirtyInv(s) && Do(s, c).Some?
    ensures DirtyInv(Do(s, c).value)
  {
    var s' := Do(s, c).value;
    var t, t' := Timeline(s), Timeline(s');
    var n := |s.done|;
    assert t' == s.done + [s'.done[n]];
    forall k {:trigger t'[k]} | 0 <= k < |t'|
      ensures t'[k].afterSave == SavedAt(t', k, s.saved) && t'[k].beforeSave == SavedAt(t', k + 1, s.saved)
    {
      StampsPrefix(t, t', k);
      if k < n {
        assert t[k] == t'[k];
        StampsPrefix(t, t', k + 1);
      } else {
        assert t'[..n] == s.done;
        FreshStamp(t'[..n + 1], n, s.saved);
      }
    }
    FreshStamp(s'.done, n, s.saved);
  }

  lemma DirtyUndo(s: History)
    requires DirtyInv(s) && UndoLast(s).Some?
    ensures DirtyInv(UndoLast(s).value)
  {
    if s.done != [] {
      var s' := UndoLast(s).value;
      assert Timeline(s') == Timeline(s);
      assert Timeline(s)[..|s.done| - 1] == s'.done;
      assert Timeline(s)[|s.done| - 1] == s.done[|s.done| - 1];
    }
  }

  ghost predicate SameFlags(a: Entry, b: Entry) {
    a.stamp == b.stamp && a.afterSave == b.afterSave && a.beforeSave == b.beforeSave
  }

  lemma FlagsTransfer(t: seq<Entry>, t': seq<Entry>, saved: seq<nat>)
    requires FlagsExact(t, saved) && |t| == |t'| && forall k {:trigger t'[k]} | 0 <= k < |t| :: SameFlags(t[k], t'[k])
    ensures FlagsExact(t', saved)
  {
    forall k {:trigger t'[k]} | 0 <= k < |t'|
      ensures t'[k].afterSave == SavedAt(t', k, saved) && t'[k].beforeSave == SavedAt(t', k + 1, saved)
    {
      assert SameFlags(t[k], t'[k]);
      StampsPrefix(t', t, k);
      StampsPrefix(t', t, k + 1);
    }
  }

  /** Redoing moves the border of the timeline; the entry that is passed only gets another memory. */
  lemma RedoTimeline(a: seq<Entry>, b: seq<Entry>, e: Entry, e': Entry, k: nat)
    requires SameFlags(e, e') && k < |a| + 1 + |b|
    ensures |a + Reversed(b + [e])| == |(a + [e']) + Reversed(b)| == |a| + 1 + |b|
    ensures SameFlags((a + Reversed(b + [e]))[k], ((a + [e']) + Reversed(b))[k])
  {
    var t, t' := a + Reversed(b + [e]), (a + [e']) + Reversed(b);
    if k < |a| {
      assert t[k] == a[k] == t'[k];
    } else if k == |a| {
      assert t[k] == e && t'[k] == e';
    } else {
      assert t[k] == (b + [e])[|b| - (k - |a|)] == t'[k];
    }
  }

  lemma DirtyRedo(s: History)
    requires DirtyInv(s) && RedoLast(s).Some?
    ensures DirtyInv(RedoLast(s).value)
  {
    if s.undone != [] {
      var s' := RedoLast(s).value;
      var t, t', n := Timeline(s), Timeline(s'), |s.done|;
      var e := s.undone[|s.undone| - 1];
      assert s.undone == s'.undone + [e];
      forall k {:trigger t'[k]} | 0 <= k < |t'| ensures SameFlags(t[k], t'[k]) {
        RedoTimeline(s.done, s'.undone, e, s'.done[n], k);
      }
      FlagsTransfer(t, t', s.saved);
      assert t'[..n + 1] == s'.done;
      assert t'[n] == s'.done[n] && t'[n].beforeSave == SavedAt(t', n + 1, s.saved);
    }
  }

  /** Saving flags the commands on both sides of the present, and no others. */
  lemma SaveFlags(s: History, k: nat)
    requires k < |Timeline(Save(s))|
    ensures |Timeline(Save(s))| == |Timeline(s)|
    ensures var e := Timeline(Save(s))[k];
            e.stamp == Timeline(s)[k].stamp && e.afterSave == (k == |s.done|) && e.beforeSave == (k + 1 == |s.done|)
  {
    var n, m := |s.done|, |s.undone|;
    if k < n {
      assert Timeline(Save(s))[k] == Save(s).done[k];
    } else {
      var j := m - 1 - (k - n);
      assert Timeline(Save(s))[k] == Save(s).undone[j];
    }
  }

  lemma FlagsAfterSave(t: seq<Entry>, n: nat, saved: seq<nat>)
    requires n <= |t| && SavedAt(t, n, saved)
    requires forall k {:trigger t[k]} | 0 <= k < |t| :: t[k].afterSave == (k == n) && t[k].beforeSave == (k + 1 == n)
    ensures FlagsExact(t, saved)
  {
    forall k {:trigger t[k]} | 0 <= k < |t|
      ensures t[k].afterSave == SavedAt(t, k, saved) && t[k].beforeSave == SavedAt(t, k + 1, saved)
    {
      OnlyThere(t, n, k, saved);
      OnlyThere(t, n, k + 1, saved);
    }
  }

  lemma DirtySave(s: History)
    requires DirtyInv(s) && forall e | e in s.done :: e.stamp < s.stamps
    ensures DirtyInv(Save(s))
  {
    var s' := Save(s);
    var t', n := Timeline(s'), |s.done|;
    forall k {:trigger t'[k]} | 0 <= k < |t'| ensures t'[k].afterSave == (k == n) && t'[k].beforeSave == (k + 1 == n) {
      SaveFlags(s, k);
    }
    assert t'[..n] == s'.done;
    assert Stamps(s'.done) == s'.saved;
    FlagsAfterSave(t', n, s'.saved);
    forall x | x in s'.saved ensures x < s'.stamps {
      var k :| 0 <= k < n && Stamps(s.done)[k] == x;
      assert s.done[k] in s.done;
    }
  }

  lemma OnlyThere(t: seq<Entry>, n: nat, k: nat, saved: seq<nat>)
    requires n <= |t| && k <= |t| && SavedAt(t, n, saved)
    ensures SavedAt(t, k, saved) == (k == n)
  {
    assert |Stamps(t[..k])| == k && |Stamps(t[..n])| == n;
  }

  ghost predicate Stamped(s: History) {
    forall e | e in s.done || e in s.undone :: e.stamp < s.stamps
  }

  lemma DirtyStep(s: History, e: Step)
    requires DirtyInv(s) && Stamped(s) && After(s, e).Some?
    ensures DirtyInv(After(s, e).value) && Stamped(After(s, e).value)
  {
    match e
    case Doing(c) => DirtyDo(s, c);
    case Undoing => DirtyUndo(s);
    case Redoing => DirtyRedo(s);
    case Saving =>
      DirtySave(s);
      StampedSave(s);
  }

  lemma StampedSave(s: History)
    requires Stamped(s)
    ensures Stamped(Save(s))
  {
    forall e | e in Save(s).done ensures e.stamp < s.stamps {
      var k :| 0 <= k < |s.done| && Save(s).done[k] == e;
      assert s.done[k] in s.done;
    }
    forall e | e in Save(s).undone ensures e.stamp < s.stamps {
      var k :| 0 <= k < |s.undone| && Save(s).undone[k] == e;
      assert s.undone[k] in s.undone;
    }
  }

  lemma {:induction false} DirtyLeads(s: History, es: seq<Step>, s': History)
    requires DirtyInv(s) && Stamped(s) && Leads(s, es, s')
    ensures DirtyInv(s')
    decreases |es|
  {
    if es != [] {
      DirtyStep(s, es[0]);
      DirtyLeads(After(s, es[0]).value, es[1..], s');
    }
  }

  /** After any run with saves anywhere, the history is dirty exactly if the commands that are done are not those that
      were done at the last save, also after the saved state has been cut off by a new command. */
  lemma DirtyExactly(g0: Graph, es: seq<Step>, s: History)
    requires Leads(Start(g0), es, s)
    ensures s.dirty <==> Stamps(s.done) != s.saved
  {
    assert Stamps([]) == [];
    DirtyLeads(Start(g0), es, s);
  }
}

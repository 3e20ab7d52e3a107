/** The object that executes commands and keeps the history. */
module DispatcherSide {
  import opened TokenStates
  import opened Commands
  import H = History

  class CommandDispatcher {
    var graph: Graph
    var done: seq<H.Entry>
    var undone: seq<H.Entry>
    var dirty: bool
    /** Tells the command objects apart. */
    var stamps: nat
    ghost var saved: seq<nat>

    constructor (g: Graph)
      ensures View() == H.Start(g)
    {
      graph, done, undone, dirty, stamps, saved := g, [], [], false, 0, [];
    }

    ghost function View(): H.History
      reads this
    {
      H.History(graph, done, undone, dirty, stamps, saved)
    }

    /** A command that does not succeed leaves the history as it is, but not the graph: what its nested commands have done
        stays. */
    method DoExecute(command: Command) returns (success: bool)
      modifies this
      ensures success == H.Do(old(View()), command).Some?
      ensures View() ==
              if success then H.Do(old(View()), command).value
              else old(View()).(graph := Attempt(old(graph), command).graph)
    {
      var afterSave := !dirty;
      var r := Attempt(graph, command);
      AttemptIsExecute(graph, command);
      success := r.success;
      graph := r.graph;
      if success {
        done := done + [H.Entry(r.memory, stamps, afterSave, false)];
        stamps := stamps + 1;
        while undone != []
          invariant graph == r.graph && dirty == old(dirty) && saved == old(saved)
          invariant stamps == old(stamps) + 1 && done == old(done) + [H.Entry(r.memory, old(stamps), afterSave, false)]
          decreases |undone|
        {
          undone := undone[..|undone| - 1];
        }
        dirty := true;
      }
    }

    method Undo()
      requires H.UndoLast(View()).Some?
      modifies this
      ensures View() == H.UndoLast(old(View())).value
    {
      if done == [] {
        return;
      }
      var last := done[|done| - 1];
      done := done[..|done| - 1];
      graph := Commands.Undo(graph, last.command).value;
      dirty := !last.afterSave;
      undone := undone + [last];
    }

    method Redo()
      requires H.RedoLast(View()).Some?
      modifies this
      ensures View() == H.RedoLast(old(View())).value
    {
      if undone == [] {
        return;
      }
      var last := undone[|undone| - 1];
      undone := undone[..|undone| - 1];
      var r := Execute(graph, last.command).value;
      graph := r.0;
      done := done + [last.(command := r.1)];
      dirty := !last.beforeSave;
    }

    /** The state has been saved. */
    method ResetDirtyPoint()
      modifies this
      ensures View() == H.Save(old(View()))
    {
      dirty := false;
      saved := H.Stamps(done);
      ClearSavepoints();
      if done != [] {
        done := done[|done| - 1 := done[|done| - 1].(beforeSave := true)];
      }
      if undone != [] {
        undone := undone[|undone| - 1 := undone[|undone| - 1].(afterSave := true)];
      }
    }

    method ClearSavepoints()
      modifies this`done, this`undone
      ensures done == H.Unflagged(old(done)) && undone == H.Unflagged(old(undone))
    {
      for k := 0 to |done|
        invariant |done| == |old(done)| && undone == old(undone)
        invariant forall j {:trigger done[j]} | 0 <= j < k :: done[j] == old(done)[j].(afterSave := false, beforeSave := false)
        invariant forall j {:trigger done[j]} | k <= j < |done| :: done[j] == old(done)[j]
      {
        done := done[k := done[k].(afterSave := false, beforeSave := false)];
      }
      assert done == H.Unflagged(old(done));
      for k := 0 to |undone|
        invariant |undone| == |old(undone)| && done == H.Unflagged(old(done))
        invariant forall j {:trigger undone[j]} | 0 <= j < k :: undone[j] == old(undone)[j].(afterSave := false, beforeSave := false)
        invariant forall j {:trigger undone[j]} | k <= j < |undone| :: undone[j] == old(undone)[j]
      {
        undone := undone[k := undone[k].(afterSave := false, beforeSave := false)];
      }
    }
  }
}

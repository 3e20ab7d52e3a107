/** The node that contains a subgraph and iterates it over the elements of a container. */
module SubgraphSide {
  import opened TokenStates
  import opened Inboxes
  import I = Iteration

  class SubgraphNode {
    /** The input whose containers are iterated; at most one is allowed. */
    const iterated: Option<nat>
    var iterating: bool
    var sentCurrent: bool
    var finished: bool
    var index: nat
    var count: nat
    /** The continuation is set. */
    var waiting: bool
    /** The two transitions towards the inner graph, and the answers behind the first. */
    var relayIn: Inbox
    var tokens: seq<I.Message>
    var outDone: bool
    var inputs: seq<I.Message>
    var added: seq<Option<I.Message>>
    ghost var calls: nat
    ghost var arrived: seq<nat>
    ghost var sent: seq<seq<I.Message>>

    constructor (iterated: Option<nat>, relays: nat)
      ensures this.iterated == iterated && |tokens| == relays && sent == [] && calls == 0
      ensures relays > 0 ==> I.Ready(View())
    {
      this.iterated := iterated;
      iterating, sentCurrent, finished, index, count, waiting := false, false, false, 0, 0, false;
      relayIn, tokens, outDone := Initial(relays), seq(relays, _ => I.NoMessage), true;
      inputs, added := [], seq(relays, _ => None);
      calls, arrived, sent := 0, seq(relays, _ => 0), [];
    }

    ghost function View(): I.Subgraph
      reads this
    {
      I.Subgraph(iterating, sentCurrent, finished, index, count, waiting, calls, relayIn, tokens, arrived, sent, outDone, inputs, added)
    }

    method Process(inputs: seq<I.Message>)
      requires outDone
      modifies this
      ensures View() == I.Process(old(View()), iterated, inputs)
    {
      var published := Begin(inputs);
      SendMessages(published);
      TryFinishSubgraph();
      if relayIn.forwarded {
        FinishSubgraph();
      }
    }

    /** A new execution: the continuation is kept, and what is sent first is collected. */
    method Begin(inputs: seq<I.Message>) returns (published: seq<I.Message>)
      requires outDone
      modifies this
      ensures View() == I.Begin(old(View()), iterated, inputs) && published == I.Parts(inputs, iterated, 0)
    {
      waiting := true;
      this.inputs := inputs;
      iterating, sentCurrent, finished := false, false, false;
      published := PublishFirst();
    }

    /** The first element of the iterated container, and all other messages as they are. */
    method PublishFirst() returns (published: seq<I.Message>)
      requires !iterating
      modifies this`iterating, this`count, this`index
      ensures published == I.Parts(inputs, iterated, 0)
      ensures iterating == I.Iterates(inputs, iterated)
      ensures index == if iterating then 1 else old(index)
      ensures count == if iterating then |inputs[iterated.value].values| else old(count)
    {
      published := [];
      for i := 0 to |inputs|
        invariant |published| == i
        invariant forall j | 0 <= j < i :: published[j] == I.Part(inputs[j], iterated == Some(j), 0)
        invariant iterating == (I.Iterates(inputs, iterated) && iterated.value < i)
        invariant index == if iterating then 1 else old(index)
        invariant count == if iterating then |inputs[iterated.value].values| else old(count)
      {
        var m := inputs[i];
        if m.Container? && iterated == Some(i) {
          iterating := true;
          count := |m.values|;
          index := 1;
          published := published + [if count > 0 then m.values[0] else I.NoMessage];
        } else {
          published := published + [m];
        }
      }
    }

    method SendMessages(values: seq<I.Message>)
      requires outDone
      modifies this`outDone, this`sent
      ensures View() == I.SendInto(old(View()), values)
    {
      outDone := false;
      sent := sent + [values];
    }

    method TryFinishSubgraph()
      modifies this
      ensures View() == I.TryFinish(old(View()), iterated)
    {
      if sentCurrent {
        if !iterating || index >= count {
          FinishSubgraph();
        } else if outDone {
          StartNextIteration();
        }
      }
    }

    method FinishSubgraph()
      modifies this
      ensures View() == I.Finish(old(View()))
    {
      if finished || !relayIn.forwarded {
        return;
      }
      finished := true;
      sentCurrent := false;
      if waiting {
        waiting := false;
        calls := calls + 1;
      }
    }

    method SubgraphHasProducedAllMessages()
      requires |added| == |tokens|
      modifies this
      ensures View() == I.Produced(old(View()), iterated)
    {
      if relayIn.Enabled() {
        SendCurrentIteration();
        TryFinishSubgraph();
      }
    }

    method CurrentIterationIsProcessed()
      modifies this
      ensures View() == I.TryFinish(old(View()), iterated)
    {
      TryFinishSubgraph();
    }

    method SendCurrentIteration()
      requires |added| == |tokens| && relayIn.Enabled()
      modifies this
      ensures View() == I.SendCurrent(old(View()))
    {
      relayIn := Forward(relayIn);
      AddAnswers();
      sentCurrent := true;
      if iterating && index < count {
        relayIn := Acknowledge(relayIn);
      }
    }

    /** Every relay input passes its token on to the output of the subgraph that it belongs to. */
    method AddAnswers()
      requires |added| == |tokens|
      modifies this`added
      ensures |added| == |tokens|
      ensures forall r | 0 <= r < |added| :: added[r] == Some(I.Collected(iterating, old(added[r]), tokens[r]))
    {
      ghost var before := added;
      for r := 0 to |tokens|
        invariant |added| == |tokens|
        invariant forall q | 0 <= q < r :: added[q] == Some(I.Collected(iterating, before[q], tokens[q]))
        invariant forall q | r <= q < |tokens| :: added[q] == before[q]
      {
        if iterating {
          var vector := [];
          if added[r].Some? && added[r].value.Container? {
            vector := added[r].value.values;
          }
          added := added[r := Some(I.Container(vector + [tokens[r]]))];
        } else {
          added := added[r := Some(tokens[r])];
        }
      }
    }

    method StartNextIteration()
      requires outDone
      modifies this
      ensures View() == I.StartNext(old(View()), iterated)
    {
      var published := [];
      for i := 0 to |inputs|
        invariant View() == old(View()).(sentCurrent := sentCurrent)
        invariant sentCurrent == (old(sentCurrent) && !(I.Iterates(inputs, iterated) && iterated.value < i))
        invariant |published| == i
        invariant forall j | 0 <= j < i :: published[j] == I.Part(inputs[j], iterated == Some(j), index)
      {
        var m := inputs[i];
        if m.Container? && iterated == Some(i) {
          sentCurrent := false;
          published := published + [if index < |m.values| then m.values[index] else I.NoMessage];
        } else {
          published := published + [m];
        }
      }
      assert published == I.Parts(inputs, iterated, index);
      index := index + 1;
      SendMessages(published);
    }

    method NotifyMessagesProcessed()
      modifies this`relayIn
      ensures View() == I.NotifyMessagesProcessed(old(View()))
    {
      relayIn := Acknowledge(relayIn);
    }
  }
}

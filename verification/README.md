# A verified model of csapex

csapex runs dataflow graphs: nodes with input and output ports, connections that carry one token at a time, and a
scheduler that executes nodes on a pool of threads.  This project models its core and proves properties of it.

| files | part of csapex |
|---|---|
| `Network`, `Modes`, `Determinism`, `Progress`, `Deadlock` | the token handshake of a whole graph as a state machine; runs of any length under any schedule |
| `Rounds`, `Inboxes` | one round of an output transition, and the life of an input transition, over values |
| `OutputSide`, `InputSide`, `Worker`, `Refinement` | the objects of the handshake, which do what the values say, and the network, which does what the objects do |
| `Iteration`, `SubgraphSide` | subgraphs that iterate over a container |
| `Slots`, `SlotCalls` | slots and the queue of events in front of them |
| `Graphs`, `Grouping`, `GroupingCounts`, `GroupingFlags`, `Ungrouping`, `Regrouping` | moving nodes into a subgraph and back |
| `OldNames`, `Pasting`, `Snippets` | saving a selection and loading it under new names |
| `Commands`, `History`, `Effects`, `DispatcherSide` | undoable commands, the undo history and the dirty flag |
| `Uuid`, `UuidProvider`, `GeneratedNames` | hierarchical names and the generator of unused names |
| `Codec`, `Formats` | the binary format |
| `ThreadPools`, `PoolIds`, `PoolOrder` | generators of tasks and the thread groups they are assigned to |

The style follows the source.  Objects with fields are classes whose methods are proved against functions over values;
the properties are lemmas about these functions, for all inputs and all runs.

What turned out differently from what one would expect:

- A node whose first visited output is unconnected reports its round complete while its other outputs are still being
  published (src/csapex_core/src/msg/output.cpp:231-235).  In acyclic graphs of sequential nodes this breaks back-pressure, and
  nothing else does.
- A sink with an unconnected output may be notified of its previous round while it executes, and then acknowledges its inputs
  before it has finished.
- One mandatory input without a connection stops, after a bounded number of steps, all nodes that are connected with its
  node in whatever direction, those before it included.
- A transition that has forwarded without any connection never reads a token of a connection that is added then.  A
  connection that is added in the middle of a round, and whose sender has nothing under way, leaves the sender out of order.
- An empty container is iterated like a container of one missing element, and a pipelining subgraph may call its
  continuation before the answers have arrived.
- A slot that is disabled while it holds a token keeps the token; one that does not block may then never take an event
  again.
- Parsing a name that starts with the separator does not end.  A name is looked up as text but registered as printed
  components, so two objects can get one name if separators overlap.
- A connection that is added again gets another id, so a later command that named it by id cannot be redone.  Nothing else
  makes undo or redo of these commands fail.
- If one of several nested commands refuses, the others are executed all the same, and nothing of them can be undone.
- A connection of a port that has an old event name (src/csapex_core/src/core/graphio.cpp:273-280) is lost when it is pasted,
  unless the node has the port with the current name, too; then it is moved there.
- Ungrouping loses what passes through the subgraph from one relay to another.
- A generator may be assigned by name to the private group of another one.
- With 256 different registered types the last one would be written with the tag of an empty value.

`State::DONE` and `State::NOT_INITIALIZED` of connections are one value, as in the enumeration.

## Model

| member | source | states |
|---|---|---|
| `Network.RunInv` | src/csapex_core/src/model/node_worker.cpp:571-736 | in every reachable state of every graph, each connection is a one-place buffer between the executions of its ends and carries exactly the tokens that the equation of its source gives; no schedule or mix of modes breaks this |
| `Network.NextInv` | src/csapex_core/src/model/node_worker.cpp:715-775 | every execute and notify step keeps that invariant, one step at a time |
| `Network.AcknowledgeInv` | src/csapex_core/src/msg/input_transition.cpp:210-228 | acknowledging upstream, and queueing the notify task of the nodes whose round completes, restores the part that sending has suspended |
| `Modes.KeptUntilReleased` | src/csapex_core/src/model/node_worker.cpp:696-775 | in every run, whatever the modes: the inputs that an execution has consumed stay read up to the step that acknowledges them, which depends on the mode it was started with |
| `Modes.ReleasedTogether` | src/csapex_core/src/model/node_worker.cpp:696-775 | that step is the end of a pipelining execution or of one of a sink, and otherwise the notification of a sequential one: it acknowledges all inputs together and queues the notify task of exactly those senders whose round ends with it |
| `Modes.FinishAcknowledges` | src/csapex_core/src/model/node_worker.cpp:696-713 | after the end of an execution the inputs are done if it was pipelining, or sequential in a sink that was not notified meanwhile; they stay read up to the notification in all other nodes |
| `Modes.NotifiedSink` | src/csapex_core/src/model/node_worker.cpp:750-775 | the exception for sinks is needed: a run is given in which a sink with an unconnected output is notified of its previous round while it executes |
| `Modes.ModeKept` | src/csapex_core/src/model/node_worker.cpp:603-609 | the mode of a node is the one of its last start |
| `Determinism.ScheduleIndependence` | src/csapex_core/src/model/node_worker.cpp:571-736 | two runs of one graph under any two schedules and any modes agree: the k-th execution of a node consumes the same tokens, and the k-th token of every connection is the same |
| `Determinism.RunMeetsEquations` | src/csapex_core/src/msg/output_transition.cpp:151-186 | in an acyclic graph the tokens are those of the dataflow equations, which do not mention schedules at all |
| `Progress.BackPressureHolds` | src/csapex_core/src/model/node_worker.cpp:696-775 | sequential nodes without early completion: a node has unread or read output connections only while all its inputs are read, in every run |
| `Progress.ProcessedDownstream` | src/csapex_core/src/model/node_worker.cpp:696-775 | under back-pressure, when a connection is done so is every connection on every path behind it |
| `Progress.EarlyCompletionBreaks` | src/csapex_core/src/msg/output.cpp:231-235 | an inner node whose first visited output is unconnected, and that can execute at all, does acknowledge its inputs while its own tokens are unread; the run is constructed |
| `Progress.BackPressureExactly` | src/csapex_core/src/msg/output.cpp:231-235 | back-pressure holds in all sequential runs of an acyclic graph if and only if no inner node completes early, nodes apart that can never execute because a node before them lacks a connection |
| `Progress.NoLivelock` | src/csapex_core/src/model/node_worker.cpp:750-775 | acknowledging cannot go on without executing: at least every fourth step of a run starts an execution |
| `Progress.StarvesIdle` | src/csapex_core/src/model/node_worker.cpp:234-266 | a node that lacks a connection, and every node behind it, never executes in any run |
| `Deadlock.DeadlockExactly` | src/csapex_core/src/model/node_worker.cpp:234-282 | an acyclic graph can come to a standstill if and only if every weakly connected component has a node that cannot execute, because a mandatory input is unconnected or it has no ports |
| `Deadlock.StandstillInevitable` | src/csapex_core/src/model/node_worker.cpp:234-282 | in that case every run ends, after a number of steps that depends on the graph only |
| `Deadlock.DeadlockFree` | src/csapex_core/src/model/node_worker.cpp:784-791 | nodes that lack nothing and are connected among themselves only never stop: in every state of every run some step is enabled |
| `Deadlock.LinkedBounds` | src/csapex_core/src/model/node_worker.cpp:784-791 | a node k connections away from one that cannot execute, whatever their directions, executes at most k times |
| `Rounds.CompletionsOfRound` | src/csapex_core/src/msg/output_transition.cpp:188-225 | in whatever order the tokens of a round are read and processed, the last acknowledgement and no other signals its end, after the unconnected outputs at the front have done so |
| `Rounds.OneCompletionPerRound` | src/csapex_core/src/msg/output_transition.cpp:188-264 | a finished round has signalled exactly one completion if and only if the output visited first is connected, or is the only one |
| `Rounds.SentStep` | src/csapex_core/src/msg/output.cpp:201-236 | publishing output n takes the round from its state after n outputs to the state after n + 1 |
| `Rounds.ProcessedSettles` | src/csapex_core/src/msg/output_transition.cpp:188-225 | processing any one token settles the round: the completion is signalled exactly if it was the last open one |
| `OutputSide.Connection.SetState` | src/csapex_core/src/model/connection.cpp:250-286 | callers keep to the order done, unread, read, done that the assertions demand, and nothing but the state changes |
| `OutputSide.Connection.SetToken` | src/csapex_core/src/model/connection.cpp:161-183 | a token is set on a finished connection only, and is counted and remembered |
| `OutputSide.Connection.SetTokenProcessed` | src/csapex_core/src/model/connection.cpp:146-159 | only the first call of a round is reported upstream, and the objects follow the specified round; an output that has nothing under way ignores the report |
| `OutputSide.Output.CommitMessages` | src/csapex_core/src/msg/static_output.cpp:68-119 | the pending token becomes the committed one, an empty one if there was none, with the next sequence number |
| `OutputSide.Output.NotifyMessageProcessed` | src/csapex_core/src/msg/output.cpp:50-74 | a completed output becomes idle and reports to its transition |
| `OutputSide.Output.NotifyMessageProcessedBy` | src/csapex_core/src/msg/output.cpp:76-104 | an output is complete exactly when none of its enabled connections is unread or read any more |
| `OutputSide.Output.Publish` | src/csapex_core/src/msg/output.cpp:201-236 | every connection of the output receives the committed token; without connections the output completes at once |
| `OutputSide.OutputTransition.constructor` | src/csapex_core/src/msg/output_transition.cpp:19-25 | a transition without outputs is in order |
| `OutputSide.OutputTransition.AddOutput` | src/csapex_core/src/msg/output_transition.cpp:64-99 | a new output gets the sequence number of the transition, and everything stays in order |
| `OutputSide.OutputTransition.AddConnection` | src/csapex_core/src/msg/transition.cpp:32-39 | a new connection joins its output and the transition, and everything stays in order |
| `OutputSide.OutputTransition.AreAllConnections` | src/csapex_core/src/msg/transition.cpp:66-75 | the answer holds if and only if all connections are in the state |
| `OutputSide.OutputTransition.TokenProcessed` | src/csapex_core/src/msg/output_transition.cpp:188-225 | the end of the round is signalled exactly if all connections are done |
| `OutputSide.OutputTransition.CanStartSendingMessages` | src/csapex_core/src/msg/output_transition.cpp:132-149 | the flags of the outputs agree with the states of the connections: true if and only if all connections are done |
| `OutputSide.OutputTransition.CommitOutputs` | src/csapex_core/src/msg/output_transition.cpp:151-175 | all outputs are committed, each with the token that was added to it or an empty one, and carry the next sequence number |
| `OutputSide.OutputTransition.FillConnections` | src/csapex_core/src/msg/output_transition.cpp:244-264 | publishing the outputs one by one is the specified sending of the whole round |
| `OutputSide.OutputTransition.SendMessages` | src/csapex_core/src/msg/output_transition.cpp:151-186 | from idle outputs: every connection gets its token, all outputs carry one sequence number, one above that of the previous round, and the completions are those of the specified round |
| `Inboxes.ReadAllOrNone` | src/csapex_core/src/msg/input_transition.cpp:210-294 | in every reachable state all connections of a transition are read or none is, also when a connection joins in the middle of a round |
| `Inboxes.OneBatchPerForward` | src/csapex_core/src/msg/input_transition.cpp:210-228 | however often the transition is notified, each forward is followed by exactly one batch of acknowledgements, and calls outside of a round do nothing |
| `Inboxes.OneTokenPerForward` | src/csapex_core/src/msg/input_transition.cpp:241-294 | each forward consumes one token of every connection that was there from the start |
| `Inboxes.ConnectedNeverStuck` | src/csapex_core/src/msg/input_transition.cpp:103-119 | a transition that starts with a connection never waits for an acknowledgement that is refused |
| `Inboxes.StuckForEver` | src/csapex_core/src/msg/input_transition.cpp:210-228 | a token that arrives at a transition that has forwarded without connections is never read, in any continuation |
| `Inboxes.StuckExactly` | src/csapex_core/src/msg/input_transition.cpp:103-119 | getting stuck is possible if and only if the transition starts without a connection |
| `Inboxes.AddedKeepsPace` | src/csapex_core/src/msg/input_transition.cpp:103-119 | a connection that is added is where all others are, so it neither enables nor disables the transition |
| `InputSide.InputTransition.IsEnabled` | src/csapex_core/src/msg/input_transition.cpp:121-165 | true if and only if there are no inputs, or nothing is forwarded and every connection is unread |
| `InputSide.InputTransition.ForwardMessages` | src/csapex_core/src/msg/input_transition.cpp:241-294 | every input takes the token of its connection and all connections become read, while the senders stay in order |
| `InputSide.InputTransition.NotifyMessageProcessed` | src/csapex_core/src/msg/input_transition.cpp:210-228 | all tokens are acknowledged together and only once per forward, and each sender is told about the end of its round exactly if it has come |
| `InputSide.InputTransition.ConnectionAdded` | src/csapex_core/src/msg/input_transition.cpp:103-119 | a connection that is added while the others hold tokens joins them with an empty token, unread or read as they are, and otherwise stays as it is; its sender stays in order if and only if it got no token or its output has tokens under way |
| `InputSide.InputTransition.AddInput` | src/csapex_core/src/msg/input_transition.cpp:50-66 | an input without connections joins, and everything stays in order |
| `InputSide.InputTransition.Attach` | src/csapex_core/src/model/connectable.cpp:229-237 | a connection becomes that of an input and of the transition |
| `InputSide.InputTransition.AreAllConnections` | src/csapex_core/src/msg/transition.cpp:77-87 | the answer holds if and only if every connection is in one of the two states |
| `InputSide.InputTransition.IsOneConnection` | src/csapex_core/src/msg/transition.cpp:101-110 | the answer holds if and only if some connection is in the state |
| `InputSide.Input.SetToken` | src/csapex_core/src/msg/input.cpp:137-161 | the input register holds the token that was forwarded last, and the input has counted it |
| `Worker.NodeWorker.CanExecute` | src/csapex_core/src/model/node_worker.cpp:234-282 | true if and only if the node has ports, all mandatory inputs are connected, both transitions allow it, the connections of its events are done and it is not processing |
| `Worker.NodeWorker.CanReceive` | src/csapex_core/src/model/node_worker.cpp:250-266 | true if and only if every input that is not optional is connected |
| `Worker.NodeWorker.CanSend` | src/csapex_core/src/model/node_worker.cpp:268-282 | true if and only if all connections of the outputs and of the events are done |
| `Worker.NodeWorker.StartProcessingMessages` | src/csapex_core/src/model/node_worker.cpp:571-650 | the mode is fixed for the execution and the inputs are forwarded; nothing is acknowledged yet |
| `Worker.NodeWorker.FinishProcessing` | src/csapex_core/src/model/node_worker.cpp:669-685 | the outputs are sent; a pipelining node and a sink acknowledge at once, a sequential inner node does not |
| `Worker.NodeWorker.SignalMessagesProcessed` | src/csapex_core/src/model/node_worker.cpp:696-713 | acknowledges upstream exactly for a sink, a pipelining execution or a pruned one |
| `Worker.NodeWorker.PruneExecution` | src/csapex_core/src/model/node_worker.cpp:658-661 | a pruned execution sends nothing and acknowledges |
| `Worker.NodeWorker.NotifyMessagesProcessedDownstream` | src/csapex_core/src/model/node_worker.cpp:750-775 | a sequential execution acknowledges upstream only here, when its own tokens are done |
| `Worker.NewNode` | src/csapex_core/src/model/node_worker.cpp:40-85 | a node without ports, with both transitions in order |
| `Worker.Connect` | src/csapex_core/src/model/connectable.cpp:229-237 | a new connection between two nodes, at any time: the receiver and all its senders stay in order if and only if the connection got no token or its output has tokens under way |
| `Refinement.ExecutesAlike` | src/csapex_core/src/model/node_worker.cpp:784-791 | the step of the network is enabled exactly if the two transition objects of the node allow it |
| `Refinement.StartsAlike` | src/csapex_core/src/model/node_worker.cpp:600-630 | starting in the network is forwarding in the object, and the node remembers the mode it was started with |
| `Refinement.AcknowledgesAlike` | src/csapex_core/src/msg/input_transition.cpp:210-228 | acknowledging in the network is what the object does with its connections |
| `Refinement.CompletionOfAcknowledge` | src/csapex_core/src/msg/output_transition.cpp:188-225 | the network completes the round of a sender exactly if the last of its tokens becomes done |
| `Refinement.SettlesAlike` | src/csapex_core/src/msg/output_transition.cpp:188-225 | the notify task is queued exactly if the acknowledgements have settled the round of the sender |
| `Refinement.SendsAlike` | src/csapex_core/src/msg/output_transition.cpp:244-264 | sending in the network is publishing all outputs of the object, early completions included |
| `Refinement.FinishesAlike` | src/csapex_core/src/model/node_worker.cpp:669-713 | finishing in the network acknowledges as the object does: for a sink and for a pipelining execution |
| `Refinement.NotifiesAlike` | src/csapex_core/src/model/node_worker.cpp:750-775 | and the notify task for a sequential one |
| `Iteration.IterationIsMap` | src/csapex_core/src/model/subgraph_node.cpp:181-229 | for every interleaving of answers and acknowledgements: in iteration i, element i of the container goes in with the other inputs as they are, the outputs hold the answers in the same order, the continuation is called once, and one answer per relay and one acknowledgement per element are exactly what it takes |
| `Iteration.SingleExecution` | src/csapex_core/src/model/subgraph_node.cpp:181-229 | without a container the inputs go in once and the answers are passed on as they are |
| `Iteration.PartsAre` | src/csapex_core/src/model/subgraph_node.cpp:798-818 | what is sent in an iteration is what the inputs hold, with one element in place of the iterated container |
| `Iteration.AfterLeft` | src/csapex_core/src/model/subgraph_node.cpp:710-818 | each answer and each acknowledgement brings the execution one step closer to its end |
| `Iteration.NeverWaitsForNothing` | src/csapex_core/src/model/subgraph_node.cpp:710-818 | as long as something is left to do, the inner graph owes an answer or an acknowledgement |
| `Iteration.ReadyAgain` | src/csapex_core/src/model/subgraph_node.cpp:693-698 | after a finished execution has been acknowledged the subgraph is ready for the next one |
| `Iteration.WaitsExactly` | src/csapex_core/src/model/subgraph_node.cpp:721-760 | the continuation waits for the answers if and only if the answers of the previous execution have been acknowledged before the next one starts |
| `Iteration.AllCollected` | src/csapex_core/src/model/subgraph_node.cpp:365-387 | the answer of every relay is appended to what its output has collected so far |
| `SubgraphSide.SubgraphNode.Process` | src/csapex_core/src/model/subgraph_node.cpp:181-229 | the object does what the specified machine does with the inputs |
| `SubgraphSide.SubgraphNode.TryFinishSubgraph` | src/csapex_core/src/model/subgraph_node.cpp:721-736 | the execution is finished exactly in the states of the machine that allow it |
| `SubgraphSide.SubgraphNode.FinishSubgraph` | src/csapex_core/src/model/subgraph_node.cpp:738-760 | the continuation is called and cleared |
| `SubgraphSide.SubgraphNode.SendCurrentIteration` | src/csapex_core/src/model/subgraph_node.cpp:780-796 | the answers of all relays are added to the outputs, once per iteration |
| `SubgraphSide.SubgraphNode.StartNextIteration` | src/csapex_core/src/model/subgraph_node.cpp:798-818 | the next element goes into the graph, together with the inputs that are not iterated |
| `SubgraphSide.SubgraphNode.SubgraphHasProducedAllMessages` | src/csapex_core/src/model/subgraph_node.cpp:710-719 | all answers of an iteration have arrived: the machine goes on as specified |
| `SubgraphSide.SubgraphNode.CurrentIterationIsProcessed` | src/csapex_core/src/model/subgraph_node.cpp:700-708 | the inner graph has processed an element: the machine goes on as specified |
| `SubgraphSide.SubgraphNode.NotifyMessagesProcessed` | src/csapex_core/src/model/subgraph_node.cpp:693-698 | the relay is acknowledged when the node has been told that its messages are processed |
| `Slots.OneAtATime` | src/csapex_core/src/signal/slot.cpp:64-144 | in every run of an enabled slot: it holds a token if and only if connections wait, the first is read and the others are not, everything that arrived is finished once, in order, and a blocking slot has called back with exactly the data it finished |
| `Slots.NestedArrival` | src/csapex_core/src/signal/slot.cpp:97-114 | an event that arrives while another is being acknowledged is treated as if it had arrived after it |
| `Slots.InOrderAgainExactly` | src/csapex_core/src/signal/slot.cpp:50-62 | disabling and enabling acknowledges everything, and the slot is in order again if and only if it held no token |
| `Slots.TakesNoMore` | src/csapex_core/src/signal/slot.cpp:116-144 | a slot that does not block and kept a token over a pause takes no event any more, however many arrive |
| `SlotCalls.CalledExactly` | src/csapex_core/src/signal/slot.cpp:146-178 | in every run of any slot, a task that runs while a slot that is on holds data passes exactly this data to the callback, whether the slot blocks or not, and nothing else does |
| `SlotCalls.HeardInOrder` | src/csapex_core/src/signal/slot.cpp:146-192 | in every run of an enabled slot that does not block, with releases only after the task has run: the callback has got the data of all that is finished, in order of arrival, and of what is held once its task has run |
| `SlotCalls.OffTask` | src/csapex_core/src/signal/slot.cpp:146-178 | a slot that is off when its task runs calls nothing: if it blocks it drops the event and all that waits, otherwise it keeps the token |
| `SlotCalls.EnabledTakes` | src/csapex_core/src/signal/slot.cpp:50-55 | a slot that is enabled takes the first event that waits unless it holds one |
| `Slots.SlotObject.NotifyMessageAvailable` | src/csapex_core/src/signal/slot.cpp:85-95 | an arrival is queued, and taken at once if nothing is held |
| `Slots.SlotObject.TryNextToken` | src/csapex_core/src/signal/slot.cpp:116-144 | a disabled slot reads and acknowledges all that waits, an enabled one takes the first if it holds nothing |
| `Slots.SlotObject.NotifyMessageProcessed` | src/csapex_core/src/signal/slot.cpp:97-114 | the first of the queue is acknowledged and the next one taken |
| `Slots.SlotObject.HandleEvent` | src/csapex_core/src/signal/slot.cpp:146-178 | the callback gets the data; an empty token and a blocking slot finish at once |
| `Slots.SlotObject.NotifyEventHandled` | src/csapex_core/src/signal/slot.cpp:180-192 | the held token is given up before the next one is taken |
| `Grouping.Partition` | src/csapex_core/src/command/group_base.cpp:46-119 | every connection lies in exactly one of six classes: kept, pasted, and messages or signals that enter or leave |
| `Grouping.GroupNodes.AnalyzeConnections` | src/csapex_core/src/command/group_base.cpp:46-119 | the connections that cross the border are collected, none twice and none forgotten, in some order |
| `Grouping.GroupNodes.MapGoingIn` | src/csapex_core/src/command/group_nodes.cpp:103-133 | every connection into the group is led through the relay of the port it ends at, and a relay is made at the first of them only |
| `Grouping.GroupNodes.MapGoingOut` | src/csapex_core/src/command/group_nodes.cpp:135-165 | every connection out of the group is led through the relay of the port it starts at |
| `Grouping.GroupNodes.MapConnections` | src/csapex_core/src/command/group_nodes.cpp:95-229 | the relays of the four kinds of crossings follow one another and their edges are all that is added |
| `Grouping.GroupNodes.DoExecute` | src/csapex_core/src/command/group_nodes.cpp:43-82 | the edges of the graph and of the new subgraph after grouping; flattened they are exactly the old connections under the new names |
| `Grouping.GroupingPreserves` | src/csapex_core/src/command/group_nodes.cpp:43-229 | the two levels together stand for every old connection, under the new names, exactly as often as it existed |
| `Grouping.GroupingPreservesAll` | src/csapex_core/src/command/group_nodes.cpp:43-229 | the same as an equality of multisets of connections |
| `Grouping.GoesThrough` | src/csapex_core/src/command/group_nodes.cpp:103-229 | each crossing connection is led through the relay that was made for its own port |
| `Grouping.FirstsDiffer` | src/csapex_core/src/command/group_nodes.cpp:112-127 | the cache lets no port inside have two relays |
| `GroupingFlags.RelayEdge` | src/csapex_core/src/command/group_nodes.cpp:103-165 | the edge inside of a relay leads to the port of all connections that go through the relay, and has the flag of the first of them |
| `GroupingCounts.OneRelayPerPort` | src/csapex_core/src/command/group_nodes.cpp:103-229 | no two relays of the subgraph lead to the same port in the same direction |
| `GroupingCounts.OuterDegrees` | src/csapex_core/src/command/group_nodes.cpp:103-229 | no port outside has more connections than before |
| `GroupingCounts.InnerDegrees` | src/csapex_core/src/command/group_nodes.cpp:103-229 | no port inside has more connections than before |
| `GroupingCounts.ConnectionRelayDegree` | src/csapex_core/src/command/group_nodes.cpp:103-133 | in the whole graph after grouping, a relay that leads to a message input has no more connections than that input had |
| `GroupingCounts.SignalRelayDegree` | src/csapex_core/src/command/group_nodes.cpp:167-197 | in the whole graph after grouping, a relay that leads to a slot has no more connections than that slot had |
| `GroupingCounts.LeavingDegrees` | src/csapex_core/src/command/group_nodes.cpp:135-229 | in the whole subgraph, every relay that leads out has at most one connection |
| `GroupingCounts.RelaysAreSingle` | src/csapex_core/src/msg/input.cpp:26-29 | if every message input had at most one connection, the same holds of the message inputs that grouping makes: those of the relays that lead in, outside, and those of the relays that lead out, inside |
| `GroupingCounts.InputsStaySingle` | src/csapex_core/src/msg/input.cpp:26-29 | if every message input had at most one connection, the same holds of the inputs of all nodes after grouping, in the graph and in the subgraph |
| `Ungrouping.UngroupNodes` | src/csapex_core/src/command/ungroup_nodes.cpp:47-109 | the loops over remembered connections yield the specified connections, or nothing if and only if some relay cannot be bridged |
| `Ungrouping.Unmap` | src/csapex_core/src/command/ungroup_nodes.cpp:111-169 | the connections of one kind of inner port are made until one fails |
| `Ungrouping.UngroupingFlattens` | src/csapex_core/src/command/ungroup_nodes.cpp:47-169 | unless it fails, ungrouping yields every connection that the two levels make directly or through one relay, exactly as often |
| `Ungrouping.PassingLostExactly` | src/csapex_core/src/command/ungroup_nodes.cpp:111-169 | it also keeps what passes through the subgraph from relay to relay if and only if there is none: no edge inside between two relays is connected outside at both of them |
| `Ungrouping.WaysAreShort` | src/csapex_core/src/command/ungroup_nodes.cpp:111-169 | if no edge outside leads from the subgraph back to it, there are no longer ways from port to port than these |
| `Regrouping.GroupThenUngroup` | src/csapex_core/src/command/ungroup_nodes.cpp:47-169 | ungrouping a fresh group never fails and gives the original connections under the new names, activity flags aside |
| `Pasting.CopyAndPaste` | src/csapex_core/src/command/paste_graph.cpp:27-40 | saving a selection and loading it makes one new node with an unused name for each selected node, with its kind and ports, and adds exactly the inner connections whose ports exist under their current names; the copy is isomorphic if and only if no inner connection has a port with an old name |
| `Pasting.PasteCopies` | src/csapex_core/src/core/graphio.cpp:137-219 | the same over values: old nodes and connections stay, and the added connections are, as a multiset, the renamed inner ones that survive the renaming of old event ports |
| `Pasting.LinksCopied` | src/csapex_core/src/core/graphio.cpp:356-418 | without old port names, a connection inside the selection is loaded as often as it existed, although it was grouped by source and read back from text |
| `Pasting.OnlyInnerCopied` | src/csapex_core/src/core/graphio.cpp:391-418 | every loaded connection is one that was inside the selection, between the same ports of the copies under their current names and with its flag |
| `Pasting.SavedInner` | src/csapex_core/src/core/graphio.cpp:137-168 | exactly the connections with both ends in the selection are saved, although they are collected port by port |
| `Pasting.GroupedTimes` | src/csapex_core/src/core/graphio.cpp:322-354 | grouping by source loses and repeats no connection, whatever its text is read as |
| `Pasting.SaveSelectedGraph` | src/csapex_core/src/core/graphio.cpp:137-168 | the loops over nodes, ports and connections collect the specified snippet |
| `Pasting.SaveConnections` | src/csapex_core/src/core/graphio.cpp:322-354 | the map from sources to targets is filled connection by connection |
| `Snippets.EntriesAre` | src/csapex_core/src/core/graphio.cpp:322-354 | the snippet has one entry for each source, with all its targets and their flags in their order |
| `Pasting.NewNodes` | src/csapex_core/src/core/graphio.cpp:179-201 | every saved node gets an id that is generated for its kind, and was taken neither by the graph nor by another copy |
| `Pasting.LoadIntoGraph` | src/csapex_core/src/core/graphio.cpp:170-219 | the graph after loading is the old one with the copies and the connections whose ports exist |
| `Pasting.LoadConnection` | src/csapex_core/src/core/graphio.cpp:391-418 | a target is skipped exactly if one of the two ports does not exist |
| `Pasting.PortCopied` | src/csapex_core/src/core/graphio.cpp:269-295 | the text of a selected port is read as the port of the copy that has the current name |
| `Pasting.AddedExactly` | src/csapex_core/src/core/graphio.cpp:269-295 | old event names included: the added connections are, as a multiset, the inner ones whose two ports exist under their current names |
| `Pasting.CopiedExactly` | src/csapex_core/src/core/graphio.cpp:269-295 | an inner connection is copied if and only if neither of its ports has an old event name, or its node has the port with the current name |
| `Pasting.RenamedExactly` | src/csapex_core/src/core/graphio.cpp:269-295 | the inner connections are copied one for one if and only if none of them has a port with an old event name |
| `Pasting.OldNameLost` | src/csapex_core/src/core/graphio.cpp:269-295 | two nodes whose one connection starts at an output with an old event name: nothing is loaded of it, whatever the rest of the name |
| `OldNames.UpgradedPort` | src/csapex_core/src/core/graphio.cpp:273-280 | the text of a port with an old event name is read as the port of the same node with the current one, all others as they are |
| `Commands.InsertNumbered` | src/csapex_core/src/model/connection.cpp:353-378 | ids stay positions and the insertion can be undone if and only if nothing is inserted behind the end |
| `Commands.RemoveNumbered` | src/csapex_core/src/model/connection.cpp:392-404 | after a removal the ids are the positions again |
| `Commands.RemoveInserted` | src/csapex_core/src/command/add_fulcrum.cpp:33-43 | removing an inserted fulcrum restores the list |
| `Commands.InsertRemoved` | src/csapex_core/src/command/delete_fulcrum.cpp:31-46 | inserting a removed fulcrum restores the list with types and handles |
| `Commands.FulcrumList.AddFulcrum` | src/csapex_core/src/model/connection.cpp:353-378 | the loop that renumbers the later fulcrums is the specified insertion |
| `Commands.FulcrumList.DeleteFulcrum` | src/csapex_core/src/model/connection.cpp:392-404 | the loop that renumbers the later fulcrums is the specified removal |
| `Commands.AllRemoved` | src/csapex_core/src/command/command_factory.cpp:161-176 | deleting all fulcrums of a connection from the last to the first never fails and leaves none |
| `Commands.DeleteUndone` | src/csapex_core/src/command/delete_connection.cpp:33-72 | deleting a connection with any number of fulcrums and undoing it restores id, flag and the whole list, whatever ids were given out since |
| `Commands.LeafUndone` | src/csapex_core/src/command/modify_connection.cpp:31-48 | executing and undoing a single command restores the connections |
| `Commands.UndoRestores` | src/csapex_core/src/command/meta.cpp:68-111 | the same for commands nested to any depth |
| `Commands.ExecuteAgain` | src/csapex_core/src/command/meta.cpp:113-121 | a command that names by id only connections below n has the same effect again, whatever it remembers, on all graphs that agree up to the ids from n on |
| `Commands.SameEffect` | src/csapex_core/src/command/meta.cpp:113-121 | what a command remembers makes no difference to its effect |
| `Commands.AcrossGap` | src/csapex_core/src/model/connection.cpp:25-29 | ids are not given out again: a command that succeeds where the connections with some ids are gone names none of them, at any depth |
| `Commands.AttemptIsExecute` | src/csapex_core/src/command/meta.cpp:68-91 | executing nested commands one after the other succeeds exactly if all of them do, and then has their effect |
| `Commands.AttemptApplies` | src/csapex_core/src/command/meta.cpp:68-91 | a nested command that refuses is only reported and an error ends the loop: what is left of the graph is what the other commands have made of it |
| `Commands.RefusalGoesOn` | src/csapex_core/src/command/meta.cpp:68-91 | the commands behind one that refuses are executed as if it was not there, an error ends them |
| `History.HistoryRefinesReplay` | src/csapex_core/src/command/dispatcher.cpp:56-187 | after every run of commands, undo, redo and saves, undo does not fail; and if the commands that are done name by id only connections that were there at the start, the graph is what they make of the graph at the start: the connections that were there with their ids, the added ones up to theirs |
| `History.HistoryIsReplay` | src/csapex_core/src/command/dispatcher.cpp:56-187 | if no connection has been added, the ids are the same, too |
| `Effects.HistoryTold` | src/csapex_core/src/command/dispatcher.cpp:56-187 | after every history, told from the arguments of the done commands alone, nested ones included: there is a connection between two ends exactly if it was added last; its flag is that of its last modification or of the command that added it, or that of the start; its fulcrums are those put in and not taken out, each in its place; all else is as at the start |
| `Effects.AttemptTold` | src/csapex_core/src/command/meta.cpp:68-91 | the same of what a failing command leaves: its parts that succeeded are done |
| `Effects.SucceedsExactly` | src/csapex_core/src/command/modify_connection.cpp:31-48 | a single command succeeds if and only if what it is about is there, or for a new connection, is not |
| `History.CursorMoves` | src/csapex_core/src/command/dispatcher.cpp:56-187 | the history is a list with a cursor: undo and redo move it by one, saving leaves it, and a new command replaces what is behind it |
| `History.RedoNeverFailsExactly` | src/csapex_core/src/command/add_connection.cpp:46-49 | after every run, mixed ones included: no going back and forth by undo and redo can fail if and only if no command of either stack names by id, at any depth, a connection that was added since the start |
| `History.UndoInv` | src/csapex_core/src/command/dispatcher.cpp:152-169 | undo never fails, in any history, and keeps both stacks consistent with the graph |
| `History.RedoInv` | src/csapex_core/src/command/dispatcher.cpp:171-187 | a redo that does not fail keeps both stacks consistent with the graph |
| `History.MixingBreaksRedo` | src/csapex_core/src/command/add_connection.cpp:46-49 | an instance: after adding a connection and changing it by its id, undo and redo can fail |
| `History.DirtyExactly` | src/csapex_core/src/command/dispatcher.cpp:56-140 | after every run with saves anywhere the history is dirty if and only if the done commands are not those of the last save, also when the saved state was cut off |
| `History.DirtyStep` | src/csapex_core/src/command/dispatcher.cpp:92-119 | each step keeps the save-point flags exact |
| `DispatcherSide.CommandDispatcher.DoExecute` | src/csapex_core/src/command/dispatcher.cpp:56-85 | a successful command is done and empties the undone stack; a failed one leaves stacks and flag as they are, and the graph as its nested commands have left it |
| `DispatcherSide.CommandDispatcher.Undo` | src/csapex_core/src/command/dispatcher.cpp:152-169 | the last command moves to the undone stack and the flags decide about dirty |
| `DispatcherSide.CommandDispatcher.Redo` | src/csapex_core/src/command/dispatcher.cpp:171-187 | the last undone command moves back |
| `DispatcherSide.CommandDispatcher.ResetDirtyPoint` | src/csapex_core/src/command/dispatcher.cpp:92-106 | the present becomes the only save point |
| `DispatcherSide.CommandDispatcher.ClearSavepoints` | src/csapex_core/src/command/dispatcher.cpp:108-119 | all flags of both stacks are cleared |
| `Uuid.Parse` | src/csapex_util/src/uuid.cpp:85-127 | the backward search returns the specified components for every text that does not start with a separator |
| `Uuid.ReturnsExactly` | src/csapex_util/src/uuid.cpp:107-125 | the search comes to an end if and only if the text does not start with a separator |
| `Uuid.RoundTripExactly` | src/csapex_util/src/uuid.cpp:141-155 | for components without a tilde: parsing the printed name gives them back if and only if the name has no other separators than those printed and does not start with one |
| `Uuid.ParsesBack` | src/csapex_util/src/uuid.cpp:85-155 | without other separators the components come back, also next to tildes |
| `Uuid.NoBarRoundTrips` | src/csapex_util/src/uuid.cpp:85-155 | it is enough that no component has a bar or is a tilde and the outermost is not empty |
| `Uuid.RoundTripByAccident` | src/csapex_util/src/uuid.cpp:117-119 | with a tilde and overlapping separators a name with another separator may still come back |
| `UuidProvider.RoundTripWithoutOverlap` | src/csapex_util/src/uuid.cpp:85-155 | whatever tildes there are, if no two separators of the printed name overlap: it parses back if and only if no component is a tilde, there are no other separators, and none is at the start |
| `Uuid.ParentOfDerived` | src/csapex_util/src/uuid.cpp:186-194 | the parent of a derived name is what it was derived from |
| `UuidProvider.Provider.MakeUUID` | src/csapex_util/src/uuid_provider.cpp:37-50 | a taken text and a name without components are refused, everything else is registered |
| `UuidProvider.Provider.RegisterUUID` | src/csapex_util/src/uuid_provider.cpp:52-57 | the count of the printed name goes up by one |
| `UuidProvider.Provider.MakeDerivedUUID` | src/csapex_util/src/uuid_provider.cpp:80-88 | the components of the parent follow those of the child, and nothing is looked up |
| `UuidProvider.Provider.GenerateUUID` | src/csapex_util/src/uuid_provider.cpp:64-78 | the search ends, with the first number whose name is not registered |
| `UuidProvider.Provider.GenerateDerivedUUID` | src/csapex_util/src/uuid_provider.cpp:104-118 | the same with the counters of the parent |
| `UuidProvider.Provider.FreeUUID` | src/csapex_util/src/uuid_provider.cpp:125-139 | the name and the counters of its parent are forgotten |
| `UuidProvider.FirstFreeIs` | src/csapex_util/src/uuid_provider.cpp:64-78 | the number found is the least one whose name is free; one always is, since different numbers give different names |
| `UuidProvider.NamesDiffer` | src/csapex_util/src/uuid_provider.cpp:193-213 | different numbers give different names, also after parsing and printing |
| `UuidProvider.PrintsBackExactly` | src/csapex_util/src/uuid.cpp:85-155 | a text without a tilde is printed as it was read if and only if no two separators share a colon |
| `UuidProvider.GeneratedIsFree` | src/csapex_util/src/uuid_provider.cpp:64-118 | a generated id is different from everything registered, whatever was made or freed before |
| `GeneratedNames.GeneratedIs` | src/csapex_util/src/uuid_provider.cpp:64-78 | the text of a generated id is the prefix, an underscore and the least free decimal number, from the one behind the last or from 0; nothing else is counted |
| `GeneratedNames.DerivedIs` | src/csapex_util/src/uuid_provider.cpp:104-118 | the same beneath a parent, whose printed name comes first and which has counters of its own |
| `GeneratedNames.MadeIs` | src/csapex_util/src/uuid_provider.cpp:37-88 | a made id is the text unless it is taken, a derived one the components of the child followed by those of the parent; exactly this name is counted |
| `GeneratedNames.FreedIs` | src/csapex_util/src/uuid_provider.cpp:125-139 | freeing forgets one name and the counters beneath its parent, and nothing else |
| `UuidProvider.CountsExactly` | src/csapex_util/src/uuid_provider.cpp:37-139 | in every run a name is registered exactly as often as it was handed out since it was last freed |
| `UuidProvider.HeldAreDistinct` | src/csapex_util/src/uuid_provider.cpp:37-139 | in every run of careful calls all ids that are held have different names |
| `UuidProvider.MadeIsFreeExactly` | src/csapex_util/src/uuid_provider.cpp:37-50 | making a name never collides if and only if its text has no overlapping separators, since the text is looked up but the printed components are registered |
| `UuidProvider.NeverGeneratedAgain` | src/csapex_util/src/uuid_provider.cpp:193-202 | a generated top-level name is never generated a second time, not even after it was freed |
| `UuidProvider.DerivedAgain` | src/csapex_util/src/uuid_provider.cpp:135-138 | a derived name is generated again after it was freed |
| `Codec.FloatReadBack` | src/csapex_core/src/serialization/serialization_buffer.cpp:347-388 | every float, as a bit pattern, is read back |
| `Codec.DoubleReadBack` | src/csapex_core/src/serialization/serialization_buffer.cpp:391-439 | every double is read back, although three bits of the exponent are shifted into its mantissa |
| `Codec.FloatWrittenBack` | src/csapex_core/src/serialization/serialization_buffer.cpp:347-388 | every four bytes are the bytes of exactly one float |
| `Codec.DoubleWrittenBack` | src/csapex_core/src/serialization/serialization_buffer.cpp:391-439 | every eight bytes are the bytes of exactly one double |
| `Codec.ReadBack` | src/csapex_core/include/csapex/serialization/io/std_io.h:24-95 | a value nested to any depth is read back wherever it stands, and the cursor ends right behind it |
| `Codec.TextAt` | src/csapex_core/src/serialization/io/std_io.cpp:7-24 | a text is read back with its two bytes of length |
| `Codec.RegistrySound` | src/csapex_core/src/serialization/serialization_buffer.cpp:69-159 | after any registrations, repeated ones included: what is written with a tag is read as the same type if and only if the last registration of each type is one of the last 256 and its number is no multiple of 256, so always below 256 |
| `Codec.RegistryFull` | src/csapex_core/src/serialization/serialization_buffer.cpp:79-81 | different types are told apart if and only if there are fewer than 256 of them: the 256th gets the tag of an empty value |
| `Codec.AnyReadBack` | src/csapex_core/src/serialization/serialization_buffer.cpp:264-297 | a value of a registered type comes back, of any other type it comes back empty, and the cursor is right in both cases |
| `Codec.PacketReadBack` | src/csapex_core/src/serialization/packet_serializer.cpp:54-85 | a packet with a serializer comes back |
| `Codec.PacketLost` | src/csapex_core/src/serialization/packet_serializer.cpp:54-66 | a packet without a serializer cannot be read at the end of a buffer |
| `Codec.ItemsReadBack` | src/csapex_core/src/serialization/serialization_buffer.cpp:213-297 | any list of items is read back in order from any position |
| `Codec.BufferReadBack` | src/csapex_core/src/serialization/serialization_buffer.cpp:161-187 | under that condition on the registrations a whole buffer with its header is read back and the cursor ends at its end |
| `Formats.IntFormat` | src/csapex_core/include/csapex/serialization/serialization_buffer.h:72-82 | an integer is written as four bytes, the lowest first |
| `Formats.FloatFormat` | src/csapex_core/src/serialization/serialization_buffer.cpp:347-369 | the bytes of a float are sign, mantissa and exponent, the highest bits first |
| `Formats.DoubleFormat` | src/csapex_core/src/serialization/serialization_buffer.cpp:391-419 | the bytes of a double are its bit pattern, the highest first |
| `Formats.TextFormat` | src/csapex_core/src/serialization/io/std_io.cpp:7-13 | a text is its length in two bytes, the lowest first, and its characters |
| `Formats.VectorFormat` | src/csapex_core/include/csapex/serialization/io/std_io.h:24-34 | a vector is its length in one byte and its elements in order |
| `Formats.AnyFormat` | src/csapex_core/src/serialization/serialization_buffer.cpp:79-81 | a value of any registered type is the number of the last registration of its type and the value |
| `Formats.PacketFormat` | src/csapex_core/src/serialization/packet_serializer.cpp:54-66 | a packet is the byte that tells that there is one, the byte of its serializer and its contents |
| `Formats.ItemsFormat` | src/csapex_core/src/serialization/serialization_buffer.cpp:213-297 | items are written one behind the other in order |
| `Formats.HeaderFormat` | src/csapex_core/src/serialization/serialization_buffer.cpp:161-171 | the header is the length of the whole buffer in four bytes, the lowest first |
| `Formats.WithinBuffer` | src/csapex_core/include/csapex/serialization/io/std_io.h:24-95 | a value that is read lies in the buffer |
| `Codec.Init` | src/csapex_core/src/serialization/serialization_buffer.cpp:69-159 | the loop that numbers the registrations fills both maps as specified |
| `Codec.SerializationBuffer.Finalize` | src/csapex_core/src/serialization/serialization_buffer.cpp:161-171 | the header holds the length and the contents stay |
| `Codec.SerializationBuffer.ReadRaw` | src/csapex_core/src/serialization/serialization_buffer.cpp:250-262 | exactly the next n bytes are read, or nothing |
| `Codec.SerializationBuffer.WriteValue` | src/csapex_core/include/csapex/serialization/io/std_io.h:24-95 | the bytes of the value are appended |
| `Codec.SerializationBuffer.ReadValue` | src/csapex_core/include/csapex/serialization/io/std_io.h:24-95 | the value at the cursor is read, or reading fails |
| `Codec.SerializationBuffer.WriteAny` | src/csapex_core/src/serialization/serialization_buffer.cpp:264-277 | tag and value are appended, or the tag of an empty value |
| `Codec.SerializationBuffer.ReadAny` | src/csapex_core/src/serialization/serialization_buffer.cpp:279-297 | an unknown tag leaves the value empty |
| `Codec.SerializationBuffer.Write` | src/csapex_core/src/serialization/serialization_buffer.cpp:213-226 | a byte tells whether there is a packet |
| `Codec.SerializationBuffer.Read` | src/csapex_core/src/serialization/serialization_buffer.cpp:228-236 | a packet is read by the serializer of its kind |
| `ThreadPools.Partition` | src/csapex_core/src/scheduling/thread_pool.cpp:129-367 | in every fair run each assigned generator is in exactly the group it is assigned to, once and with all its tasks, and a private group has at most one |
| `ThreadPools.StepSound` | src/csapex_core/src/scheduling/thread_pool.cpp:129-367 | every single call keeps this |
| `ThreadPools.AssignedSound` | src/csapex_core/src/scheduling/thread_pool.cpp:208-230 | moving a generator keeps this and loses or duplicates none of its tasks or of anybody else |
| `ThreadPools.UsedPrivatelySound` | src/csapex_core/src/scheduling/thread_pool.cpp:246-277 | so does giving it a private thread |
| `ThreadPools.PrivateGone` | src/csapex_core/src/scheduling/thread_pool.cpp:223-228 | a private group does not outlive the generator that leaves it |
| `ThreadPools.CreatedForExactly` | src/csapex_core/src/scheduling/thread_pool.cpp:303-317 | assigning by name keeps the partition if and only if the name is not that of a private group that another generator has |
| `ThreadPools.DetachedIs` | src/csapex_core/src/model/node_runner.cpp:285-294 | a detached runner has exactly its pending tasks |
| `ThreadPools.JoinedGroup` | src/csapex_core/src/model/node_runner.cpp:120-163 | the new group has exactly the tasks the runner brings and its own, each of them once |
| `ThreadPools.ScheduledSound` | src/csapex_core/src/model/node_runner.cpp:266-277 | scheduling adds exactly one task to the pending ones |
| `ThreadPools.ExecutedSound` | src/csapex_core/src/scheduling/thread_group.cpp:404-427 | executing takes exactly one task out |
| `ThreadPools.StepConserves` | src/csapex_core/src/scheduling/thread_pool.cpp:129-367 | each call changes the pending tasks by exactly those it adds and the one it executes |
| `ThreadPools.PendingExactly` | src/csapex_core/src/scheduling/thread_group.cpp:342-427 | after every fair run a task is pending if and only if it has been scheduled, or gained by an assignment, and not been executed since |
| `ThreadPools.ExecutedAtMost` | src/csapex_core/src/scheduling/thread_group.cpp:342-427 | in every fair run a task is executed at most as often as it was added, and less often while it is pending |
| `PoolOrder.RunInLine` | src/csapex_core/src/scheduling/thread_group.cpp:342-427 | in every fair run the tasks of a generator are executed in the order in which they were added, however it is moved: what is added goes to the end of its line, and what is executed was the first |
| `PoolOrder.AddedInOrder` | src/csapex_core/src/scheduling/thread_group.cpp:342-363 | what is queued goes behind what is there, in its order |
| `PoolIds.IdsDiffer` | src/csapex_core/src/scheduling/thread_group.cpp:22-34 | in every fair run in which no id is asked for that is in use, groups that are not private have different ids, and searching for an id finds the one group that has it |
| `PoolIds.CreatedIs` | src/csapex_core/src/scheduling/thread_pool.cpp:319-340 | a new group has the id that is asked for, or one that no group has, and all others stay as they are |
| `PoolIds.AddedLands` | src/csapex_core/src/scheduling/thread_pool.cpp:285-301 | a generator that is added to an id is in the group with this id, or stays where it is if there is none |
| `PoolIds.AddLands` | src/csapex_core/src/scheduling/thread_pool.cpp:129-147 | a generator that is added is in a private group or in the default one, by the two settings |
| `PoolIds.CreatedForLands` | src/csapex_core/src/scheduling/thread_pool.cpp:303-317 | a generator that asks for a name is in the first group that has it, or in a new one with an id of its own |
| `PoolIds.FoundFirstId` | src/csapex_core/src/scheduling/thread_pool.cpp:290-297 | whatever the ids are, the first group with the id is found |
| `PoolIds.RemovedIs` | src/csapex_core/src/scheduling/thread_pool.cpp:160-165 | a removed generator is in no group |
| `PoolIds.GroupRemovedIs` | src/csapex_core/src/scheduling/thread_pool.cpp:342-354 | removing a group by its id removes exactly that one, if it has no generators |
| `ThreadPools.ThreadPool.RemoveFromGroup` | src/csapex_core/src/scheduling/thread_group.cpp:306-340 | the loop hands back all tasks of the generator and keeps all others |
| `ThreadPools.ThreadPool.Enqueue` | src/csapex_core/src/scheduling/thread_group.cpp:342-363 | a task that is queued already is not queued again |
| `ThreadPools.ThreadPool.AssignGeneratorToGroup` | src/csapex_core/src/scheduling/thread_pool.cpp:208-230 | detaching, joining and dropping an empty private group are the specified move |
| `ThreadPools.ThreadPool.UsePrivateThreadFor` | src/csapex_core/src/scheduling/thread_pool.cpp:246-277 | a new private group is made unless the generator has one |
| `ThreadPools.ThreadPool.AddToGroup` | src/csapex_core/src/scheduling/thread_pool.cpp:285-301 | the first group with the id takes the generator; an unknown id changes nothing |
| `ThreadPools.ThreadPool.Add` | src/csapex_core/src/scheduling/thread_pool.cpp:129-147 | a private group with threading and without grouping, the default group otherwise |
| `ThreadPools.ThreadPool.CreateGroup` | src/csapex_core/src/scheduling/thread_pool.cpp:319-340 | an id that is given is used, otherwise the next one |
| `ThreadPools.ThreadPool.CreateNewGroupFor` | src/csapex_core/src/scheduling/thread_pool.cpp:303-317 | the first group with the name takes the generator, or a new one |
| `ThreadPools.ThreadPool.RemoveGroup` | src/csapex_core/src/scheduling/thread_pool.cpp:342-354 | the first group with the id is removed if it is empty |
| `ThreadPools.ThreadPool.Remove` | src/csapex_core/src/scheduling/thread_pool.cpp:160-165 | the generator is detached and forgotten |

## Left out

The handshake:
- Ports are fixed and enabled: disabling ports in the middle of a round, reset, crashes and pruning of marker messages are not modelled; a connection that is added in the middle of a round is (Inboxes, InputSide).
- Markers and activity modifiers of tokens are ordinary token data here.
- Nodes are deterministic functions of the tokens they have consumed; asynchronous nodes are covered by the separate steps Start and Finish.
- Mutexes, clocks, rate limits, time-delayed tasks and profiling: the steps are atomic.
- Progress.BackPressureExactly: for acyclic graphs, because in a cycle no node can ever be executed first; Network.RunInv and Determinism.ScheduleIndependence do not need this.
- Deadlock.DeadlockExactly: for acyclic graphs, for the same reason; whether a node can execute at all does not change during a run, and a subclass of Node may override canProcess, as SubgraphNode does.
- Worker.NodeWorker.CanExecute: of a node that is connected to itself it is never true.
- Worker.NodeWorker.StartProcessingMessages: disabled processing, markers and absent tokens of mandatory inputs, which skip or prune the execution, are left out; PruneExecution is the acknowledgement that follows.
- InputSide.Input.SetToken: the sequence number that the input takes from the token is left out.
- Events of a node appear with their connections only, and in Worker only; what a slot does with them is in Slots.
- The classes place connections and outputs by ghost indices, because an output does not know its position in the source.

Subgraphs and events:
- A relay that is connected to another relay inside a subgraph, sinks and unconnected relays are not part of the iteration model.
- Iteration.IterationIsMap: a container with no element is stated as one iteration with a missing element, as the code does it.
- The callback of a slot is any function that does not throw, and releases of slots that do not block are separate steps.

Graph transformations:
- Positions, labels, parameters and threads of nodes do not appear; type compatibility is assumed.
- Ungrouping.PassingLostExactly: counts the ways with one edge from relay to relay; there are longer ones only if an edge outside leads from the subgraph back to it (Ungrouping.WaysAreShort).
- Regrouping.GroupThenUngroup: activity flags are left aside; a relay keeps the flag of the first connection of its port.
- Pasting.CopyAndPaste: names hold no bar and no tilde, and the id of a node itself no old event name beneath another name, which generated ids never do (OldNames.SingleNotOld); nested subgraphs are part of a node's kind, and failing node factories are left out.
- Fulcrums of pasted connections: `loadFulcrum` reads the stored ids as they are (src/csapex_core/src/core/graphio.cpp:448-504), so they belong to no pasted connection.
- Pasting.LoadIntoGraph: a text that starts with a separator makes parsing hang and is excluded.
- Hash maps of the source are visited in a fixed order here; the counting lemmas do not depend on it.

Commands:
- History.HistoryRefinesReplay: for commands on connections and fulcrums and their nestings, and a command that only refuses in place of all others; commands on nodes, and those that trust constructor arguments for undo (DisableNode, MoveBox, ModifyFulcrum, MoveFulcrum), are left out.
- Commands.UndoRestores: AddFulcrum behind the end of the list is treated as a failure, because it breaks the numbering (Commands.InsertNumbered).
- Hidden and transaction commands, queued execution and notifications.

Supporting parts:
- Uuid.RoundTripByAccident: for names with both tildes and overlapping separators only this instance is given; without one of the two, Uuid.RoundTripExactly and UuidProvider.RoundTripWithoutOverlap give the exact condition.
- UuidProvider.HeldAreDistinct: counters are unbounded; the wrap-around of a 32-bit counter after two thousand million names is not modelled.
- Parent providers, global names and absolute ids.
- Codec.BufferReadBack: for the packed types int, double, bool, string, vectors and pairs; integers of 64 bits are left out because reading them shifts an int by 32 bits or more, which is undefined, and the maps and sets that use them with them.
- Codec.SerializationBuffer.ReadRaw: reading a text beyond the end of a truncated buffer is a failure here; the source checks the first byte only.
- Versions of packets, YAML texts and the network.
- ThreadPools.Partition: the queue of a group is in order of arrival, priorities are equal in the source too; stopping a pool, stepping, affinity and settings are left out.
- Qt and the other shells, plugins, file access, subprocesses and shared memory: foreign calls.

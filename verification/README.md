# Wasmati, modelled and proved in Dafny

Wasmati turns WebAssembly modules into code property graphs and answers
queries on them. For each function it folds stack-machine code into an operand
tree (AST), lowers structured control to a graph (CFG), and finds which
origins (constants, variables, calls) flow into which instructions (PDG).
Queries walk the finished graph; a small language with scopes and early exits
drives them; graphs are written as comma-separated text and read back.

The project follows these parts:

- **Lowering** (`Lowering`, `Machine`, `CfgBuilder`, `LoweringCorrect`,
  `CutLists`, `LoopFree`). The builder's edge sets as functions, a machine for
  structured control as the reference, the class that grows the graph edge by
  edge, and the theorem that graph paths and machine runs coincide exactly when
  no join loses its edge.
- **Dependences as values** (`DataFlow`, `FlowLaws`, `Flowgraph`, `CallFlow`,
  `Provenance`). The abstract states, what each visit does to them, the
  equality of solutions of the data-flow equations with the join over all
  paths, and the tracing of entries back to their origins.
- **Dependences on the heap** (`ReachDefinitions`, `Growth`, `VisitLaws`,
  `PdgBuilder`, `LoopVisits`, `BuilderRuns`, `HeapFlow`, `SharedBody`,
  `Sharing`, `LoopBody`, `LostConstants`). The classes with their sharing of
  definitions between states, the builder with its wait check and its loop
  fixpoint under any worklist order, what it does on functions without loops
  exactly, and what sharing breaks, shown by runs on two validated bodies.
- **Functions with one loop** (`OneLoop`, `OneLoopRuns`, `LoopEntry`,
  `LoopExits`, `LoopOperands`, `LoopWork`, `LoopRuns`, `OneLoopText`,
  `OneLoopCode`, `IdleLoop`). Runs that take the first task each time, as the
  source does: the loop is entered, goes round and is left, the run ends, and
  what lies behind the loop is visited and recorded exactly if control can come
  back in it.
- **Stack safety** (`StackSafety`, `StackRuns`, `ValidCode`, `DeadCode`).
  Validation of code against label stacks and heights, exactly which edges of
  validated code fail an assertion of the dependence builder, and the builder's
  runs on the rest, with loops and without. It connects lowering and
  dependences.
- **Operand trees** (`Folding`, `FoldLaws`, `FoldSuccess`, `Forests`,
  `AstBuilder`, `OperandTree`). Folding as a function onto trees, when it goes
  through, the builder that makes nodes and edges as it goes, and the recovery
  of operands by sorted ids.
- **Graphs and queries** (`Constants`, `Graphs`, `SearchOrder`, `Query`,
  `MallocConst`, `Tainted`). Edge order and mirrored adjacency, breadth-first search and its
  limits, the search for the allocating call, the search for tainted
  parameters.
- **Query programs** (`Scopes`, `Evaluation`, `ScopeLaws`, `TidyPrograms`,
  `FuelLaws`, `ResultLaws`, `Evaluator`). The symbol table, the meaning of
  programs with scopes by construction, laws of what each construct gives, and
  the evaluator that unwinds by level.
- **Serialisation** (`CsvText`, `CsvReader`, `CsvEncodings`, `CsvFormat`,
  `CsvGraph`, `CsvRoundTrip`). Line reading through a buffer, field encodings,
  rows, and the round trip of a graph.

Where the code does not do what its structure suggests, the model follows the
code and says so: the dropped join of an if/else (`LostJoinExists`), the block
result below a last loop (`ValueBelowLastLoop`), the dead code that live code
waits for (`DeadCodeHoldsBack`), the loop without a branch back behind which
nothing is visited (`CallIsNotReached`), the operands that copies of a state share
(`SumReachesBlockEnd`, `FromLoop`), the br_table that takes the result of
a function from its return node (`TableLastFails`), the start node that uses up the
limit of a search twice (`LimitCountsTwice`), the function frame that stays
after a break (`FunctionFramesLeak`), the import flag that is overwritten in a
written row (`NodeFieldsRoundTrip`), and the buffer byte that hides the end of
a file (`ReadRows`).

Preconditions of lowering are those of the source: instruction objects are
distinct, every block, loop and then-arm has an instruction, and branches name
enclosing labels. `dafny verify dfyconfig.toml` checks the whole project.

## Model

| member | source | states |
|---|---|---|
| `Machine.SettleStays` | src/cfg-builder.cc:316-318 | Reference machine for structured control: the steps that leave finished loops one after another end, and do not change the node that control is at; this is why a loop that is last may hand its exit to the enclosing construct. |
| `CfgBuilder.Cfg.GetBlock` | src/cfg-builder.cc:331-339 | Yields the innermost enclosing label of that name; with a label of that name in scope the final assertion is not reached. |
| `CfgBuilder.Cfg.InsertEdgeFromLastExpr` | src/cfg-builder.cc:300-330 | Adds exactly the edges by which control falls off the end of a list, through nested last loops, and no others. |
| `CfgBuilder.Cfg.Construct` | src/cfg-builder.cc:75-299 | The list walk adds exactly the edges of the lowering, returns true exactly if the list counts as cut at its end, and leaves the label list as it found it on every return path. |
| `CfgBuilder.Cfg.GenerateFunction` | src/cfg-builder.cc:43-69 | Entry, body, return and repair pass together build exactly the graph that the theorems below speak about. |
| `LoweringCorrect.LoweringKeepsMeaning` | src/cfg-builder.cc:43-330 | For every body that meets the preconditions: the labelled paths from the Instructions node and the runs of the structured-control machine (section 4.4.5 of the WebAssembly Core Specification 1.0) are the same, step for step and in both directions, if and only if no run reaches an if/else join whose outgoing edge was dropped. |
| `LoweringCorrect.LostJoinExists` | src/cfg-builder.cc:225-227 | The loss is real: there is a body whose graph does not have the machine's runs, because the early return for two cut arms drops the join's edge although a branch leads to it. |
| `LoweringCorrect.UntargetedKeepsMeaning` | src/cfg-builder.cc:225-241 | A condition on the code alone: if no if/else with two cut arms is the target of a branch, meaning is kept. |
| `LoweringCorrect.LiveNodesGoOn` | src/cfg-builder.cc:43-69 | Paths from the entry stop at the return node and at Trap and nowhere else. |
| `LoweringCorrect.RepairsOnlyDroppedJoins` | src/cfg-builder.cc:58-69 | The repair pass adds an edge to a live node only if that node is a dropped join, whether joins are lost in the body or not. |
| `LoweringCorrect.CutBodyIsNotLeft` | src/cfg-builder.cc:50-57 | When the walk returns true for a body and no join is lost, no run falls off the body's end. |
| `CutLists.CutListIsLeftByJoin` | src/cfg-builder.cc:75-299 | For every list for which the walk returns true, under every label stack: control gets past the instruction that stopped the walk if and only if it comes to that instruction's join, which is then an if/else with two cut arms, and it falls off the end of the list only so. |
| `CutLists.BehindOrJoined` | src/cfg-builder.cc:75-299 | Every run inside such a list stays in the part that the walk has come to, until it comes to that join. |
| `LoopFree.GraphForward` | src/cfg-builder.cc:43-330 | Without loop instructions every edge of the graph, dead code and repairs included, leads forward in the text and to a node of the text, the return node or Trap. |
| `LoopFree.OneWayOnly` | src/cfg-builder.cc:75-330 | Without loop instructions at most one edge leads into any unreachable instruction. |
| `LoweringCorrect.LookupIsJump` | src/cfg-builder.cc:331-339 | Looking a name up in the label list and branching in the machine lead to the same node. |
| `LoweringCorrect.PathIsExec` | src/cfg-builder.cc:75-299 | From every configuration that a run can be in, graph paths and continued runs correspond, tag sequence by tag sequence. |
| `FlowLaws.VisitWf` | src/pdg-builder.cc:186-733 | Every visit keeps name and kind of all entries those of their origin. |
| `FlowLaws.VisitMoves` | src/pdg-builder.cc:206-609 | Visits neither lose nor invent origins: a call is in a slot afterwards exactly if the instruction is that call and the slot its result, or the call was in a slot that the instruction moves there. |
| `FlowLaws.CrossMoves` | src/pdg-builder.cc:766-818 | The same for a visit followed by the arrival at the next instruction, with its label and result handling. |
| `FlowLaws.ArriveMoves` | src/pdg-builder.h:393-430 | Arriving at a block end, loop end, loop head or return moves each surviving operand to one slot and drops the rest. |
| `FlowLaws.UnionJoins` | src/pdg-builder.h:374-391 | Merging two states gives each slot the origins of both. |
| `FlowLaws.RecordsCalls` | src/pdg-builder.h:175-193 | An instruction has an in-edge labelled with a callee exactly if one of the operands it records has such a call among its origins. |
| `CallFlow.Program.AlongShaped` | src/pdg-builder.cc:766-846 | Along a path the shape of the state is that of the place, so no assertion fails on it. |
| `CallFlow.Program.MergedIsCarried` | src/pdg-builder.cc:801-817 | Soundness of merging, for all merged states that solve the data-flow equations: a call in a merged slot was carried there by one path. |
| `CallFlow.Program.CarriedIsMerged` | src/pdg-builder.cc:820-846 | Completeness of merging, for the same states: what one path carries into a slot is in the merged state. |
| `CallFlow.MergedAndCarried` | src/pdg-builder.cc:206-846 | Solutions of the data-flow equations, on any set of live instructions that contains what comes before its members, are the join over all paths, for call origins and every slot. HeapFlow.SolvedNow and HeapFlow.SolvedStill show where the builder's states are such a solution. |
| `CallFlow.PathMeansEdge` | src/pdg-builder.cc:206-846 | States that have at least the call origins that come in along the edges record an edge for every call that some path feeds into a recorded operand. |
| `HeapFlow.WaitsForAll` | src/pdg-builder.cc:737-764 | The wait check compares two numbers; it lets an instruction through if and only if every one of its in-edges, parallel ones included, has delivered a state. |
| `HeapFlow.PassOne` | src/pdg-builder.cc:186-236 | An instruction that has its turn is visited on the heap: nothing but what has waited there is touched, the schedule goes on, and what is sent on has all call origins that DataFlow says of values, and no others as long as no two waiting states share a definition. |
| `HeapFlow.SolvedNow` | src/pdg-builder.cc:801-817 | Where no definition serves two slots, the state that merging leaves in the heap has exactly the origins that the in-edges bring, whatever the order of merging. |
| `HeapFlow.GatheredNow` | src/pdg-builder.cc:801-817 | Whatever is shared, it has at least the call origins that the in-edges bring. |
| `HeapFlow.TakeOne` | src/pdg-builder.cc:34-41 | Any task of the worklist, held back or let through, keeps the schedule, and either the worklist gets shorter or one more instruction has passed. |
| `HeapFlow.ServedIsDone` | src/pdg-builder.cc:34-157 | When the worklist is empty, exactly those live instructions have been let through that nothing leads to but instructions which control comes to and passes. |
| `HeapFlow.AllVisited` | src/pdg-builder.cc:34-157 | All live instructions are visited if and only if no edge leads from dead code into live code. |
| `HeapFlow.GeneratePdg` | src/pdg-builder.cc:4-157 | The heap builder on a graph without loops in which at most one edge enters an unreachable instruction, with tasks taken in any order: it ends, no assertion fails, and the wait check lets exactly the instructions that ServedIsDone speaks of through, each once. If some path feeds the result of a call into an operand that such an instruction records, it has an in-edge labelled with the callee, whatever is shared; if no operands are left where control branches, it has no others. |
| `Sharing.NoPathFeedsH` | src/pdg-builder.cc:820-839 | Why operands matter: in a validated loop-free body with two values below a br_if, on whose paths no assertion fails, no path brings the result of one call to a certain local.set. |
| `Sharing.SumReachesBlockEnd` | src/pdg-builder.cc:320-334 | Yet when the worklist has been run to its end on the graph of this body, in any order, that local.set has an edge from this call, because the sum behind the br_if changes the definition that the copy of the state shares: of the two directions in GeneratePdg, the second fails here. |
| `StackSafety.BranchComes` | src/pdg-builder.h:413-426 | Popping labels for a branch target ends at the innermost label of that name and at the height and labels of the target's place. |
| `StackSafety.FallsComes` | src/pdg-builder.cc:625-719 | Falling off the end of a list arrives at the enclosing construct's end, a loop head or the return node with the shape of that place. |
| `StackRuns.EdgesGood` | src/cfg-builder.cc:75-299 | Every control-flow edge out of validated code stays in the code and arrives with the labels and the stack height of the target's place, unless it leaves a list that ends in a loop and needs operands. |
| `StackRuns.NeedyListFails` | src/pdg-builder.cc:625-640 | Every edge that leaves such a list fails the assertion at its end that the results are there. |
| `ValidCode.ValidatedIsShaped` | src/pdg-builder.cc:186-818 | Validated code without a live failing edge, loops included, meets all that the dependence builder asserts, at every instruction and on every edge that control can take. |
| `ValidCode.SafeExactly` | src/pdg-builder.h:365-430 | For all validated code: no path, however often it goes round a loop, fails an assertion if and only if no live edge leaves a list that ends in a loop and needs operands, or was drawn by the repair pass from a join with fewer operands than the function returns. |
| `ValidCode.AlongIsOfPlace` | src/pdg-builder.h:365-430 | What a path brings has the labels and the stack height of the place it has come to. |
| `ValidCode.FailingEnds` | src/pdg-builder.cc:625-640 | Every path that takes such an edge fails there. |
| `ValidCode.RunBuilder` | src/pdg-builder.cc:34-157 | The builder on such code whose loops have names of their own, loops included: for any number of tasks in any order, no assertion fails, and the changes of saved states are bounded by the shapes of their loop heads. |
| `ValidCode.GeneratePdg` | src/pdg-builder.cc:4-157 | The same for the lowered graph of any validated body without loop instructions and without a live failing edge, with no assumption on the graph or the states; every edge can be traced back along edges of its own label and kind to its origin. |
| `ValidCode.NoLoopsIsOrderly` | src/cfg-builder.cc:43-330 | The graph of a validated body without loop instructions has no cycle that control can come to, and at most one edge into an unreachable instruction, as the theorem on runs asks. |
| `DeadCode.DeadCodeHoldsBack` | src/pdg-builder.cc:737-764 | Valid code with a live instruction that is never let through: the end of a block that is left by a br_table, because the dead code behind the br_table leads to it, too. |
| `ValidCode.ValueBelowLastLoop` | src/cfg-builder.cc:316-318 | Valid code that fails: a block whose result lies below a loop that is its last instruction. The path through it is given, and it ends at the assertion of the block's end. |
| `Provenance.EqualIsSameOrigins` | src/pdg-builder.h:211-224 | Equality of definitions is equality of their origin sets, because an origin determines name and kind. |
| `Provenance.UnionIsJoin` | src/pdg-builder.h:167-169 | Merging definitions is commutative and idempotent up to equality and is the join of the origin sets. |
| `Provenance.UnionIsAssociative` | src/pdg-builder.h:167-169 | Merging definitions is associative. |
| `Provenance.FirstSourceIsKept` | src/pdg-builder.h:167-169 | Beyond equality it is not commutative: on a shared origin the source of the left operand is kept. |
| `Provenance.ThroughTraced` | src/pdg-builder.h:205-209 | Redirecting a definition through a node keeps every origin traceable, provided the edges to that node were recorded first. |
| `PdgBuilder.Builder.Record` | src/pdg-builder.h:175-193 | Exactly one edge per entry is added, none that is there already. |
| `PdgBuilder.Builder.VisitBinary` | src/pdg-builder.cc:320-356 | Edges for the merged operands, then constants dropped, sources redirected, and a definition of its own pushed; only the taken operand changes for states that share it. |
| `PdgBuilder.Builder.VisitSelect` | src/pdg-builder.cc:251-273 | Records the condition only and pushes the merge of the two values. |
| `PdgBuilder.Builder.VisitCall` | src/pdg-builder.cc:556-609 | Records each argument and pushes the call as the only origin of its result. |
| `PdgBuilder.Builder.VisitUnary` | src/pdg-builder.cc:358-394 | Changes the operand where it lies; constants survive a conversion but not a unary instruction. |
| `PdgBuilder.Builder.VisitGet` | src/pdg-builder.cc:459-513 | A copy of the variable's definition, redirected; the instruction becomes its own origin only if that was empty. |
| `PdgBuilder.Builder.VisitSet` | src/pdg-builder.cc:478-530 | The variable takes over the operand's definition itself, so sharing with other states goes on. |
| `PdgBuilder.Builder.VisitTee` | src/pdg-builder.cc:532-554 | The variable takes over the operand's definition and the stack gets a copy of it. |
| `PdgBuilder.Builder.Copy` | src/pdg-builder.h:317-321 | Copies of a state have variables of their own and share the operands. |
| `PdgBuilder.Builder.UnionStates` | src/pdg-builder.h:374-391 | Succeeds exactly if variables, heights and labels agree; no entry is lost or changed, and every slot, operands included, gains the other state's origins; if no definition serves two slots, it has no others. |
| `PdgBuilder.Builder.Normalize` | src/pdg-builder.cc:772-799 | Label and result handling on arrival leaves the state that the value-level model says, surviving operands included, and fails exactly where that does; on the first visit to a loop its label is put up. |
| `PdgBuilder.Builder.VisitPlain` | src/pdg-builder.cc:186-236 | Until every in-edge has delivered a state, and at an unreachable instruction, nothing changes; otherwise the visit, if the shapes are those of the place, goes through and leaves on the heap what the value-level model says. |
| `PdgBuilder.Builder.UniteAll` | src/pdg-builder.cc:801-817 | What was delivered is united into one of the states, in any order: every slot of it has every origin that any of them had, and no others if the states share no definition. |
| `PdgBuilder.Builder.Deliver` | src/pdg-builder.cc:820-839 | Every out-edge gets a state with the same operands and labels and the same definitions of variables; one gets the state itself, the others variables of their own. |
| `PdgBuilder.Builder.Perform` | src/pdg-builder.cc:186-733 | Visiting and going on, for all instructions: where the operands, variables and labels are those that are accepted, nothing fails, exactly the value-level edges are recorded, and the states sent on have the value-level shape, and the value too if no definition serves two slots. |
| `PdgBuilder.Builder.Advance` | src/pdg-builder.cc:820-846 | Afterwards nothing is delivered to the instruction any more, and there is one new task for every out-edge, in front of all others. |
| `LoopVisits.Settled` | src/pdg-builder.cc:673-686 | A loop that brings nothing new is cached with equal definitions. The visit goes on unless it came from inside the loop and the loop is not the innermost active one. The active loops are then the old ones without this one, if it was the innermost; where the visit stops they are the old ones. |
| `LoopVisits.Reenter` | src/pdg-builder.cc:656-699 | The saved state of a loop is replaced only by one that has all the origins the saved one had in every slot, operands included, and differs from it: in a slot where it has one more, if no definition serves two slots. A changed loop is the innermost active one afterwards, a settled one that goes on is off, and otherwise the active loops stay. |
| `BuilderRuns.VisitLoop` | src/pdg-builder.cc:645-700 | Every visit of a loop head ends in one of five ways, each with its condition and its effect on the active loops, on the saved and cached states, on what is delivered and on the tasks: held back, entered for the first time, changed, settled and gone on, settled and stopped. |
| `Growth.UnequalGains` | src/pdg-builder.h:432-456 | Of two states of one shape that the source's comparison tells apart, one that has all the origins of the other has one more in some slot. |
| `Growth.OnlyConstants` | src/pdg-builder.h:432-456 | States of one shape in which the same endures (all origins of variables, and all but constants of operands) differ in nothing but constants among the origins of operands. |
| `Growth.EnduringBounded` | src/pdg-builder.h:232-256 | In a state no more can endure than there are variables times instructions that introduce values, plus operands times those of them that are no constants. |
| `BuilderRuns.VisitTask` | src/pdg-builder.cc:34-41 | One task, of any kind: what endures of every saved state stays in it. A change of a saved state is counted whenever a visit replaces it, unless the new one differs from what was saved before the visit in nothing but constants among the origins of operands. |
| `BuilderRuns.ChangesBounded` | src/pdg-builder.cc:645-699 | In every run, the changes so counted are at most as many as pairs of a slot and an origin endure in the saved state, and these at most variables times origins plus operands times origins that are no constants. |
| `LostConstants.ToLoop` | src/pdg-builder.cc:694-698 | That constants of operands have to be left out is shown by a run on a validated body: from the start through const, br_if and loop, where a copy is saved whose operand has the constant among its origins, while the end of the block has been left the same operand. |
| `LostConstants.FromLoop` | src/pdg-builder.cc:358-374 | Two tasks later the same saved state has lost the constant, because the unary instruction behind the block has removed it from the operand that both share. |
| `BuilderRuns.Run` | src/pdg-builder.cc:34-157 | Any number of tasks, taken in any order, loops included, keep every definition traceable and every edge explained, remove no edge, take nothing from saved states but constants of operands, and keep the bound on changes; on code that meets its shapes no assertion fails, and waiting, saved and cached states keep the shapes of their places. |
| `BuilderRuns.GeneratePdg` | src/pdg-builder.cc:4-183 | Every dependence edge goes back along edges of its own label and kind to the instruction that introduced it: for kind Local a local.get of the name that is its label, for kind Global a global.get of that name, for kind Const a constant with that text, for kind Function a call of that callee or an indirect call through that table. No two edges agree in source, target, label and kind; on code that meets its shapes no assertion fails and every loop's changes are bounded. |
| `DataFlow.OriginIntroduces` | src/pdg-builder.cc:459-609 | The name and the kind under which an instruction enters definitions are those by which edges are traced back to it, and no others. |
| `OneLoop.LeftLoopLetsOn` | src/pdg-builder.cc:737-764 | Once a loop has settled and is off the active loops, an instruction outside it all of whose in-edges have delivered passes the wait check, unless a loop around holds it back; while the loop was active it did not pass. |
| `OneLoop.ServedIsFreed` | src/pdg-builder.cc:34-41 | With one loop that control can come back in, an empty worklist means that every instruction that control comes to through nothing but what it passes has been let through with no loop active. |
| `LoopRuns.TakeOne` | src/pdg-builder.cc:34-157 | The first task of the worklist, whichever it is: the schedule of a function with one loop goes on, inside the loop and behind it, operands from before the loop stay at the bottom of every state in it, and what remains to be done weighs less. |
| `LoopRuns.Drain` | src/pdg-builder.cc:34-157 | So the worklist of a function with one loop, the first task taken each time, gets empty: the fixpoint of a single loop ends, although constants of operands can be lost. |
| `LoopRuns.LeftIsRecorded` | src/pdg-builder.cc:820-846 | What a visit behind the loop leaves where one edge leads on, such as the origin of a local that has just been read, is recorded by the next instruction, constants apart. |
| `LoopRuns.ReadLocalIsRecorded` | src/pdg-builder.cc:495-513 | Behind the loop as ahead of it, the instruction that takes a local that has been read has an edge labelled with that local, of kind Local, if nothing had been put into the variable, and otherwise one for every origin of what had been put there, constants apart. |
| `LoopRuns.FedIsSeen` | src/pdg-builder.cc:820-846 | Behind the loop, what a call gives comes wherever ways that nothing else joins carry it. |
| `LoopRuns.GeneratePdg` | src/pdg-builder.cc:4-183 | The builder on code that meets its shapes and has one loop ends and fails no assertion. If control can come back to the head, all instructions that are served, behind the loop as well, have been let through, and each call among them has its edges wherever its result is carried by ways that nothing else joins. An instruction that all ways lead to through the loop has been let through if and only if control can come back. |
| `OneLoopText.GraphLeads` | src/cfg-builder.cc:43-330 | In the graph of a function with one loop every edge leads forward in the text but for those back to the head, which come from inside; no edge leads into the loop but to its head, and one edge at most leads there from outside. |
| `OneLoopCode.SeenHasOneLoop` | src/pdg-builder.cc:645-650 | Validated functions with one loop have such a graph, with the loop that the builder looks up by the syntax edges. |
| `OneLoopCode.GeneratePdg` | src/pdg-builder.cc:4-183 | What LoopRuns.GeneratePdg states, for every validated body with one loop that control comes to and without a live failing edge, with no assumption on the graph or the states. |
| `IdleLoop.CallIsNotReached` | src/pdg-builder.cc:737-764 | A validated body with a loop that has no branch back: the call behind it is served and lies beyond the loop, and control does not come back in it. |
| `IdleLoop.RunBuilder` | src/pdg-builder.cc:679-686 | So the builder never visits that call: the loop is put on the active loops when it is entered, and taken off only by another visit of its head, which never comes. |
| `FoldLaws.FoldFunctionNumbers` | src/ast-builder.cc:110-371 | Folding gives every new id to exactly one node of the tree or to one begin marker. |
| `FoldLaws.FoldFunctionProper` | src/ast-builder.cc:299-311 | Operands of every node have rising ids, all below the ids of what the node holds as a block. |
| `FoldLaws.OpTakes` | src/ast-builder.cc:110-311 | What each instruction takes, said by itself: a br_if takes the one tree on top and is a statement; a br takes none and leaves the stack; a return takes its arguments and stays on the stack as one value; all others take their arguments in order and stay on the stack exactly if they return a value and do not end control. |
| `FoldLaws.HoldersTake` | src/ast-builder.cc:230-298 | Blocks and loops take their arguments and hold their bodies; an if takes its condition and holds its arms; each is a statement or stays on the stack by its own arity. |
| `FoldSuccess.ListFolds` | src/ast-builder.cc:110-311 | Folding a list fails exactly where, by the heights of the operand stack alone, an operand is missing, in nested blocks or in the list itself. |
| `FoldSuccess.ValidFolds` | src/ast-builder.cc:313-371 | Code that is valid by the heights of WebAssembly validation, without dead code, is folded, for every function, if and only if the function has no result or does not end in a br_table that leaves no operand. |
| `FoldSuccess.TableLastFails` | src/ast-builder.cc:352-358 | Such a function: a constant, an index and a br_table to the function itself. The return node looks for its operand on an empty stack. |
| `FoldSuccess.DeadCodeFails` | src/ast-builder.cc:110-115 | Dead code can fail, too: an addition behind a branch has no operands to take. |
| `Forests.OneParent` | src/ast-builder.cc:299-311 | In a forest that uses an id at most once, a node has at most one parent. |
| `Forests.OwnLinks` | src/ast-builder.cc:299-371 | The edges from a node lead to its own operands and statements and to nothing else. |
| `OperandTree.OneParentEach` | src/ast-builder.cc:110-371 | Of the nodes made for a function, exactly the begin markers have no syntax parent, and none has two. |
| `OperandTree.NoCycle` | src/ast-builder.cc:110-371 | The subtree below a child is smaller than the one below its parent, so the syntax edges have no cycle. |
| `OperandTree.ChildrenStartWithOperands` | src/graph.cc:90-112 | getChild(k) of an operand-taking node is its k-th operand: children sorted by id start with the operands in order. |
| `AstBuilder.Builder.ConstructExpr` | src/ast-builder.cc:110-311 | What is on the operand stack and among the statements afterwards, and which edges are new, is exactly what folding says; it fails exactly where folding does. |
| `AstBuilder.Builder.ConstructFunction` | src/ast-builder.cc:313-371 | A function body becomes the folded tree under its holder, with the return node holding the result. |
| `OperandTree.BuildFunction` | src/ast-builder.cc:86-371 | The two together: a built function's edges are those of the folded tree, and every node's first children are its operands in order. |
| `Graphs.BeforeIsTotal` | src/graph.cc:192-208 | The comparison of edges is a strict total order in which only identical edges are equivalent, so a set of edges drops nothing but duplicates. |
| `Graphs.EdgeSetIsCanonical` | src/graph.h:164-169 | What a walk over an edge set meets, and in which order, depends neither on the insertion order nor on repetitions. |
| `Graphs.Graph.Connect` | src/graph.h:609-614 | Making an edge enters it in both adjacency lists, so that for every sequence of insertions the two lists of every node are the edges out of it and into it. |
| `Query.ChildrenRise` | src/graph.cc:90-112 | Children are listed with strictly rising ids, and are exactly the targets of syntax edges. |
| `Query.ForwardIsBackward` | src/query.cc:153-176 | Under the same edge condition a node is found forwards from another exactly if that one is found backwards from it. |
| `Query.NextOfAll` | src/query.cc:34-66 | children and parents return exactly the nodes one allowed edge away. |
| `Query.Bfs` | src/query.cc:144-179 | The search ends on every graph, evaluates its predicate at most once per node and only on reachable nodes, in the order of a first-in first-out queue, and returns min(limit, number of matches) of the matching nodes reachable in one or more allowed edges. |
| `Query.BfsIncludes` | src/query.cc:183-197 | The result is exactly the first matches of the start, and where these do not fill the limit, all of them and the first matches behind them in breadth-first order, as many as the limit leaves. |
| `Query.CompleteExactly` | src/query.cc:183-197 | No match is missing if and only if the start alone fills the limit exactly and has all matches, or every match that comes too late for the limit belongs to the start. |
| `SearchOrder.VisitedIsPrefix` | src/query.cc:160-176 | The breadth-first order is determined: a search that stops early has visited the first nodes of the full order. |
| `Query.LimitCountsTwice` | src/query.cc:186-196 | A start node on a cycle is counted twice: the search returns one of two matches with limit 2. |
| `MallocConst.EdgeComesFromCall` | src/queries/verifyMallocConst.cc:15-31 | On a graph of the dependence builder, an out-edge with a function label from a node that is not such a call leads back, along edges of that label, to a call or indirect call of that name. |
| `MallocConst.FindCall` | src/queries/verifyMallocConst.cc:23-31 | With no table named like an allocator the reverse search never comes back empty, and what it finds is a call of that name behind the node. |
| `MallocConst.VerifyMallocConst` | src/queries/verifyMallocConst.cc:5-39 | The answer is the value modulo 2^32 of the first of the constant edges into the allocating call, and there is one if and only if there is such an edge; the call is the node itself if it allocates, and is missing only if there is no allocator edge. |
| `Tainted.FunctionOf` | src/query.cc:214-222 | Finds a function node that contains the node, and none only if there is none. |
| `Tainted.Arguments` | src/queries/isTainted.cc:33-39 | Goes through if and only if every calling node has a child at the index of the parameter, and then collects exactly the nodes that calls of the function pass for it. |
| `Tainted.ParametersOf` | src/query.cc:237-253 | Goes through if and only if the function has a first child and at most one list of parameters under it, and then yields exactly its parameters of the given names. |
| `Tainted.DependentParameters` | src/queries/isTainted.cc:41-54 | Goes through where the argument lies in a function, and in such functions only; it yields only parameters whose names are among the local labels at the argument, and all of them if no node lies in two functions. |
| `Tainted.Relations.OneMoreReaches` | src/queries/isTainted.cc:41-60 | A witness for a caller's parameter extends to one for the callee's, through functions of different names. |
| `Tainted.IsTainted` | src/queries/isTainted.cc:9-62 | The search ends. It is aborted only if the parameter lies in no function or the search comes to a link at which one of these conditions fails, so where they hold it answers. A non-empty answer has a witness: a chain of parameters through functions of pairwise distinct names, each passed on by a call whose argument depends on a local that is the next parameter, up to a configured parameter or an exported function off the whitelist. If no node lies in two functions, an empty answer comes with the links that were searched: none is a source, and all they pass on to was searched, or its function was known by then. |
| `Tainted.Relations.CutOff` | src/queries/isTainted.cc:17-24 | A chain that such a search has missed goes through a function that was searched for another of its parameters. |
| `Tainted.Relations.NothingMissed` | src/queries/isTainted.cc:17-24 | So nothing is missed where no function has two parameters. |
| `Scopes.SymbolTable.Unwind` | src/interpreter/symbol-table.h:62-69 | Popping to a recorded level ends and leaves exactly the frames up to it, when the level is not below the recorded one. |
| `Scopes.SymbolTable.Replace` | src/interpreter/symbol-table.h:118-129 | Changes the innermost binding of the name and nothing else, and reports whether there is one. |
| `Scopes.SymbolTable.Lookup` | src/interpreter/symbol-table.h:157-168 | Finds the innermost binding of the name. |
| `ScopeLaws.EvalKeepsScopes` | src/interpreter/evaluator.h:252-478 | Scope discipline: evaluation that ends normally restores the level and leaves the names bound in every lower frame unchanged; break, continue, return and errors leave the starting frames as a prefix; the function table is higher by the number of blocks left early. |
| `TidyPrograms.RunIsTidy` | src/interpreter/evaluator.h:252-478 | A program without jumps below a block inside the loop or function that catches them, run on a table of such functions, leaves no block early unless an expression fails, and ends with a jump only if its text has one outside its own loops. |
| `TidyPrograms.FunctionFramesStay` | src/interpreter/evaluator.h:252-315 | So the function table has its height again, whatever the program does, if nothing failed. |
| `TidyPrograms.LeftBlockStays` | src/interpreter/evaluator.h:252-260 | The other way round: a block that is left early leaves its frame, whatever is in it; with a tidy body exactly then; and with a body that surely jumps always. |
| `TidyPrograms.EachRoundLeavesOne` | src/interpreter/evaluator.h:289-315 | A while loop over such a block leaves a frame behind. |
| `ScopeLaws.FunctionFramesLeak` | src/interpreter/evaluator.h:252-315 | A program that breaks out of a block ends normally and leaves the block's function frame behind. |
| `FuelLaws.MoreFuelIsSame` | src/interpreter/evaluator.h:289-369 | A run that ends has the same end and the same state with any larger bound on rounds and call depth. |
| `ResultLaws.IfElseRuns` | src/interpreter/evaluator.h:330-340 | An if/else whose condition gives true does what the first block does after it, and what the if without else does; one whose condition gives false does what the else block does. |
| `ResultLaws.IfRuns` | src/interpreter/evaluator.h:320-328 | An if whose condition gives true does what its block does after it, and nothing more than the condition otherwise. |
| `ResultLaws.BranchesAssign` | src/interpreter/evaluator.h:330-401 | An if/else that assigns in both blocks leaves the value of the block that the condition names in a variable bound outside. |
| `ResultLaws.AssignBinds` | src/interpreter/evaluator.h:395-401 | After an assignment the variable has the value and every other variable its own; a new name is bound in the innermost frame. |
| `ResultLaws.WhileGoesRound` | src/interpreter/evaluator.h:289-315 | A while loop whose condition gives true runs its body once and is then the loop again, also after continue; break ends it, and anything else ends with the body. |
| `ResultLaws.WhileStops` | src/interpreter/evaluator.h:289-315 | A while loop stops where its condition gives false. |
| `ResultLaws.ForeachRuns` | src/interpreter/evaluator.h:261-287 | A foreach loop runs its body for the items in their order, each bound to the name in the loop's frame. |
| `ResultLaws.ForeachLeaves` | src/interpreter/evaluator.h:261-287 | A break behind some items ends it there, and a return or a failure goes through it. |
| `ResultLaws.FilterKeeps` | src/interpreter/evaluator.h:459-478 | A filter yields exactly the items for which the predicate gives true, in their order. |
| `ResultLaws.CallRuns` | src/interpreter/evaluator.h:342-424 | A call binds the i-th parameter to the i-th argument in a frame of its own, yields what is returned or was last computed, and leaves the caller's frames. |
| `ResultLaws.CallsOtherwise` | src/interpreter/evaluator.h:412-424 | A call with too few arguments or of an unknown name fails, and a built-in gives the value of its table. |
| `ResultLaws.LogicalGives` | src/interpreter/evaluator.h:552-596 | And, or and not give their truth values. |
| `ResultLaws.LeftDecides` | src/interpreter/evaluator.h:552-577 | Where the left operand decides, the right one is not evaluated. |
| `ResultLaws.BlockRuns` | src/interpreter/evaluator.h:252-260 | A block runs its body in frames of its own, which are gone if it ends normally and stay otherwise. |
| `Evaluator.Evaluator.Visit` | src/interpreter/evaluator.h:252-616 | The evaluator, which changes its tables in place and unwinds them by level in loops, does exactly what the meaning with scopes by construction says. |
| `Evaluator.Evaluator.VisitEach` | src/interpreter/evaluator.h:261-287 | The foreach loop catches continue and break and goes on, or ends, with the frames it had when the round began. |
| `Evaluator.Evaluator.VisitRounds` | src/interpreter/evaluator.h:289-315 | The while loop does the same, although its level is recorded only once, before the first round. |
| `Evaluator.Evaluator.Invoke` | src/interpreter/evaluator.h:342-369 | Calls: parameters are bound in the frame made for the call, and a return unwinds to it. |
| `CsvText.NumberRoundTrip` | src/readers/csv-reader.h:197-226 | A written number is read back exactly if it fits the width, and refused otherwise. |
| `CsvText.Split` | src/utils.h:186-200 | Splits a row at every separator, empty fields included; an empty row has no fields. |
| `CsvText.FieldsRoundTrip` | src/utils.h:186-200 | Joining fields without separators and splitting again gives the same fields. |
| `CsvText.LinesRoundTrip` | src/readers/csv-reader.h:83-142 | The lines of newline-terminated rows are those rows. |
| `CsvReader.Reader.ReadLine` | src/readers/csv-reader.h:83-142 | One call returns the text up to the next newline across any number of refills; at the end of the text what happens is given exactly, depending on where in a chunk the text ends and which byte follows it in the buffer. |
| `CsvReader.Reader.ReadRows` | src/readers/csv-reader.h:30-58 | Successive calls see exactly the rows of the text, and end well if and only if the text's length is not a multiple of the buffer size and the byte left over behind it is not a newline. |
| `CsvEncodings.SourceIsLawful` | src/utils.h:87-104 | Type names, numbers below 2^31, flags and every 32- and 64-bit integer constant can be read back from what is written for them, and contain no separator. |
| `CsvFormat.NodeFieldsRoundTrip` | src/writers/csv-writer.h:417-432 | A node row parses if and only if its numbers are below 2^31 and its id is that of the next node made, and gives the same node, except that commas in names are underscores and a function's import flag has become its export flag. |
| `CsvFormat.EdgeFieldsRoundTrip` | src/writers/csv-writer.h:436-447 | An edge row parses if and only if at both ends a node of that id stands in its place among the nodes read, and gives the same edge up to commas in its label; a constant edge gets its label from its constant again. |
| `CsvGraph.ReadNodes` | src/readers/csv-reader.h:31-47 | Reading the nodes that were written gives them back in their order, and fails exactly if the ids are not 0, 1, 2 and so on, a number is too large, or the text ends badly. |
| `CsvGraph.ReadEdges` | src/readers/csv-reader.h:49-58 | Reading the edges that were written gives the same edges, and fails exactly if an end is missing or the text ends badly. |
| `CsvGraph.ByNumberSorts` | src/writers/csv-writer.h:56-62 | Writing sorts the nodes by their ids and loses none. |
| `CsvGraph.ChildHasNumber` | src/writers/csv-writer.h:68-137 | The order column counts the syntax edges of a node: its k-th child, the one that getChild(k) finds, is written as its edge number k. |
| `CsvGraph.WriteGraph` | src/writers/csv-writer.h:56-89 | The text of the nodes in the order of their ids, and of the edge set of each in its order, with syntax edges numbered for each node anew. |
| `CsvRoundTrip.EdgesComeBack` | src/readers/csv-reader.h:49-58 | After reading, the adjacency lists of each node have the edges that it had in the written graph, with underscores for commas in labels. |
| `CsvRoundTrip.SameEdgeSets` | src/graph.h:164-169 | Without commas in labels and with all nodes written, each node has the same edge sets again. |
| `CsvRoundTrip.RoundTrip` | src/readers/csv-reader.h:27-66 | A graph that is written can be read if and only if its nodes are numbered from 0 without gaps, all numbers are below 2^31, their edges stay among them, and both texts end well; then the nodes come back in the order of their ids, and each with its edges. |

## Left out

- HeapFlow.GeneratePdg: that only what some path feeds has an edge is shown where no operands are left at an instruction with several out-edges, because the states sent along them share the definitions of their operands (`Sharing.SumReachesBlockEnd` is a body where it fails); graphs without loops only; `LoopRuns.GeneratePdg` is about graphs with one loop. Self-origins of `local.get` and `global.get` are outside the path claim, because they are inserted only into an empty set.
- BuilderRuns.Run: stops after a given number of tasks. Changes of saved states are bounded but for those that touch nothing except constants of operands, which can be lost again (`LostConstants.FromLoop`), so termination is not shown for any order of tasks and any number of loops, but in `LoopRuns.Drain` for one loop; sets are walked in any order instead of the library's.
- ValidCode.RunBuilder: asks that no label has the name of a loop but the loop's own, which the names that `GenerateNames` makes (src/tools/wasmati.cc:309) meet.
- LoopRuns.GeneratePdg: takes the first task each time, as the source does. In another order the claim is false: a task of the loop that is left over uses up what was delivered behind it. Nested loops and several loops are not treated. Where several edges join behind the loop, the instruction is visited, but that it records all that comes along them is not shown, because states of earlier rounds still wait at the edges out of the loop and can let it through before the last ones have come; only its calls' and locals' ways that nothing else joins are followed.
- OneLoopCode.GeneratePdg: asks that control comes to the loop, and that no label has the name of the loop but its own.
- PdgBuilder.Builder.Normalize: loop heads have no results to keep.
- StackSafety.Valid: looks at heights and labels, not at value types, takes label names to be fresh, and has loops without results; code after a branch that is always taken is not looked at. The shapes of the places are given with the code.
- FoldLaws.FoldFunctionNumbers: arities are given with the instructions; how they are computed, and label and function names, are not part of this model.
- Evaluation.Eval: rounds of a loop and depth of calls are bounded by fuel (which `MoreFuelIsSame` shows to be irrelevant for runs that end); operators and built-in functions are tables, and attributes, member functions, imports and timing are missing.
- Query.BfsIncludes: `Index` is unbounded.
- Evaluator.Evaluator.Visit: attributes, member calls, indexing, maps and imports are missing.
- Tainted.IsTainted: what an empty answer means is shown for graphs in which no node lies in two functions.
- FoldSuccess.ValidFolds: validation of the code that is folded looks at heights, takes the arities as given, and has nothing behind an instruction that control does not go past.
- CsvRoundTrip.RoundTrip: integer constants only, because floating-point text is lossy; all edges and nodes are printed; archives, the rest of the info file, source locations and the datalog layout are missing.
- CsvEncodings.SourceIsLawful: opcode and variable type names are kept as text.
- The other pattern queries: heuristics whose claims would repeat their bodies.
- Call-graph edges, the `Predicate` rows, the dot, JSON and datalog writers, Neo4j scripts, command line and grammar.

// The operands under a loop: while the loop is visited they stay the same
// objects, which every state in the loop has at the bottom of its stack.
module LoopOperands {
  import opened Wrappers
  import opened DataFlow
  import opened Flowgraph
  import opened Provenance
  import opened VisitLaws
  import opened ReachDefinitions
  import opened PdgBuilder
  import opened BuilderRuns
  import opened OneLoop
  import opened OneLoopRuns
  import opened LoopEntry

  predicate EndsWith(stack: seq<Definition>, base: seq<Definition>) {
    |base| <= |stack| && stack[|stack| - |base|..] == base
  }

  // Nothing in the loop takes operands that were there before it.
  ghost predicate Rests(g: Flowgraph, l: Loop, shape: Node -> Shape, results: nat) {
    forall n :: g.Live(n) && n in l.body && n != l.head && !n.inst.Unreachable? ==>
      shape(l.head).height + Kept(n, results) <= shape(n).height && shape(l.head).height + Pops(n.inst) <= shape(n).height
  }

  // What waits in the loop; before it is entered that is nothing but what
  // waits at the head.
  ghost predicate BasedIn(l: Loop, base: seq<Definition>, entered: bool, reach: map<Node, set<ReachDefinition>>, stacks: map<ReachDefinition, seq<Definition>>) {
    forall m, t :: m in l.body && t in Among(reach, m) ==> t in stacks && if entered then EndsWith(stacks[t], base) else m == l.head
  }

  ghost predicate SavedOn(b: Builder, l: Loop, base: seq<Definition>)
    reads b`loops, b`cache, b.loops.Values, b.cache.Values
  {
    l.head in b.loops ==> b.loops[l.head].stack == base && l.head in b.cache && b.cache[l.head].stack == base && |base| == b.shape(l.head).height
  }

  ghost predicate Based(b: Builder, l: Loop, base: seq<Definition>)
    reads b`loops, b`cache, b`reachDef, b`states, b.loops.Values, b.cache.Values, b.states
  {
    SavedOn(b, l, base) && BasedIn(l, base, l.head in b.loops, b.reachDef, Stacks(b.states))
  }

  // ----- stacks -----

  lemma DropEnds(stack: seq<Definition>, base: seq<Definition>, k: nat)
    requires EndsWith(stack, base) && k + |base| <= |stack|
    ensures EndsWith(stack[k..], base)
  {
    assert stack[k..][|stack| - k - |base|..] == stack[|stack| - |base|..];
  }

  lemma PutEnds(top: seq<Definition>, stack: seq<Definition>, base: seq<Definition>)
    requires EndsWith(stack, base)
    ensures EndsWith(top + stack, base)
  {
    assert (top + stack)[|top| + |stack| - |base|..] == stack[|stack| - |base|..];
  }

  // What arrives keeps them.
  lemma SurvivingEnds(n: Node, sh: Shape, stack: seq<Definition>, base: seq<Definition>, results: nat, left: Shape)
    requires EndsWith(stack, base) && ShapeOnArrival(n, sh, results) == Some(left) && Kept(n, results) + |base| <= left.height <= |stack|
    ensures EndsWith(Surviving(n, sh, stack, results), base) && |Surviving(n, sh, stack, results)| == left.height
  {
    hide ShapeOnArrival;
    var k := Kept(n, results);
    var rest := stack[|stack| - (left.height - k)..];
    DropEnds(stack, base, |stack| - (left.height - k));
    PutEnds(stack[..k], rest, base);
  }

  lemma UntakenEnds(n: Node, before: seq<Definition>, after: seq<Definition>, base: seq<Definition>)
    requires Builder.Untaken(n, before, after) && EndsWith(before, base) && Pops(n.inst) + |base| <= |before|
    ensures EndsWith(after, base)
  {
    hide Pops, Pushes;
    DropEnds(before, base, Pops(n.inst));
    PutEnds(after[..Pushes(n.inst)], after[Pushes(n.inst)..], base);
    assert after == after[..Pushes(n.inst)] + after[Pushes(n.inst)..];
  }

  // ----- one task -----

  // The states that are not at `n` still have the operands they had.
  ghost predicate Untouched(b: Builder, reach: map<Node, set<ReachDefinition>>, n: Node, stacks: map<ReachDefinition, seq<Definition>>)
    reads b`states, stacks.Keys
  {
    forall t :: t in stacks && t !in Among(reach, n) ==> t in b.states && t.stack == stacks[t]
  }

  // States have gone on from `n`, all with the operands under the loop if it
  // is in the loop.
  lemma BasedOn(b: Builder, l: Loop, base: seq<Definition>, was: Before, n: Node, sent: map<CfgEdge, ReachDefinition>, entered: bool,
                stacks: map<ReachDefinition, seq<Definition>>)
    requires GoneOn(b, was, n, sent) && Untouched(b, was.reachDef, n, stacks) && WaitsOnce(was, n)
    requires forall m, t :: m in l.body && m != n && t in Among(was.reachDef, m) ==> t in stacks && if entered then EndsWith(stacks[t], base) else m == l.head
    requires forall e :: e in sent && e.dst in l.body ==> if entered then EndsWith(sent[e].stack, base) else e.dst == l.head
    ensures BasedIn(l, base, entered, b.reachDef, Stacks(b.states))
  {
    hide EndsWith, Scheduled, Builder.AllSentDiffer;
    forall m, t | m in l.body && t in Among(b.reachDef, m)
      ensures t in b.states && if entered then EndsWith(t.stack, base) else m == l.head
    {
      assert m != n && b.Delivered(m) == Among(was.reachDef, m) + Builder.Arriving(sent, m);
      if t in Builder.Arriving(sent, m) {
        var e :| e in sent && e.dst == m && sent[e] == t;
        assert sent[e] in sent.Values;
      }
    }
  }

  // The operands with which `n`, in the loop, is left.
  lemma SentEnds(b: Builder, l: Loop, base: seq<Definition>, was: Before, n: Node, came: map<ReachDefinition, State>, joined: State,
                 sent: map<CfgEdge, ReachDefinition>)
    requires VisitDone(b, was, n, came, false, joined, sent) && !n.inst.LoopHead?
    requires |base| + Kept(n, b.results) <= b.shape(n).height && |base| + Pops(n.inst) <= b.shape(n).height
    requires forall t :: t in came && t in was.stacks ==> EndsWith(was.stacks[t], base) && |was.stacks[t]| == |came[t].stack|
    requires forall t :: t in came ==> ShapeOnArrival(n, ShapeOf(came[t]), b.results) == Some(b.shape(n))
    ensures forall e :: e in sent ==> EndsWith(sent[e].stack, base)
  {
    hide EndsWith, ShapeOnArrival, Surviving, Kept, Pops, Builder.Moved, Builder.AllSentDiffer, Builder.Carried, JoinsAll, Adds, Builder.Marks, Builder.Current,
         Builder.Risen, Builder.CoversAll, WfState, Builder.ArrivedValues, Builder.AfterVisit, Builder.SizeAfter, Accepts, Builder.AllAssured, Builder.Altered;
    var t :| t in was.stacks && t in came && b.Handed(n, b.OperandsLeft(n, ShapeOf(came[t]), was.stacks[t]), joined, sent);
    ArrivedHeight(n, came[t], b.results);
    SurvivingEnds(n, ShapeOf(came[t]), was.stacks[t], base, b.results, b.shape(n));
    forall e | e in sent
      ensures EndsWith(sent[e].stack, base)
    {
      UntakenEnds(n, Surviving(n, ShapeOf(came[t]), was.stacks[t], b.results), sent[e].stack, base);
    }
  }

  lemma ArrivedHeight(n: Node, s: State, results: nat)
    requires ShapeOnArrival(n, ShapeOf(s), results).Some?
    ensures ShapeOnArrival(n, ShapeOf(s), results).value.height <= |s.stack|
  {
    ArriveMeans(n, s, results);
  }

  // A visit to an instruction that is no loop head.
  lemma PlainBased(b: Builder, l: Loop, base: seq<Definition>, was: Before, n: Node, came: map<ReachDefinition, State>, joined: State,
                   sent: map<CfgEdge, ReachDefinition>, stacks: map<ReachDefinition, seq<Definition>>)
    requires HasOneLoop(b.graph, l) && b.graph.Live(n) && !n.inst.Unreachable? && n != l.head && Rests(b.graph, l, b.shape, b.results)
    requires VisitDone(b, was, n, came, false, joined, sent) && !n.inst.LoopHead? && Untouched(b, was.reachDef, n, stacks) && WaitsOnce(was, n)
    requires BasedIn(l, base, l.head in b.loops, was.reachDef, stacks) && (l.head in b.loops ==> |base| == b.shape(l.head).height)
    requires came.Keys == Among(was.reachDef, n) != {} && forall t :: t in came ==> t in was.stacks && t in stacks && was.stacks[t] == stacks[t] && |stacks[t]| == |came[t].stack|
    requires forall t :: t in came ==> ShapeOnArrival(n, ShapeOf(came[t]), b.results) == Some(b.shape(n))
    requires l.head in b.loops && n !in l.body ==> forall e :: e in b.graph.InEdges(l.head) ==> e.src != n
    ensures BasedIn(l, base, l.head in b.loops, b.reachDef, Stacks(b.states))
  {
    hide EndsWith, ShapeOnArrival, Surviving, Kept, Pops, VisitDone, Flowgraph.Live, GoneOn, HasOneLoop;
    HasGoneOn(b, was, n, came, joined, sent);
    GoneKeys(b, was, n, sent);
    forall e | e in sent && e.dst in l.body
      ensures if l.head in b.loops then EndsWith(sent[e].stack, base) else e.dst == l.head
    {
      if n in l.body {
        SentEnds(b, l, base, was, n, came, joined, sent);
      } else {
        b.graph.FlowKeepsLive(e);
        IntoBody(b.graph, l, e);
      }
    }
    BasedOn(b, l, base, was, n, sent, l.head in b.loops, stacks);
  }

  lemma GoneKeys(b: Builder, was: Before, n: Node, sent: map<CfgEdge, ReachDefinition>)
    requires GoneOn(b, was, n, sent)
    ensures sent.Keys == b.graph.OutEdges(n)
  {
    hide Scheduled;
  }

  lemma IntoBody(g: Flowgraph, l: Loop, e: CfgEdge)
    requires HasOneLoop(g, l) && e in g.cfg && g.Live(e.dst) && e.dst in l.body && e.src !in l.body
    ensures e.dst == l.head && e in g.InEdges(l.head)
  {
    hide Flowgraph.Live;
    assert Fits(l, e);
  }

  // ----- the head -----

  // What arrives at the head again has the operands with which the loop was
  // entered, and nothing else.
  lemma LeftsAre(b: Builder, l: Loop, base: seq<Definition>)
    requires Shapely(b) && Based(b, l, base) && l.head in b.loops && l.head in l.body && l.head.inst.LoopHead?
    ensures forall x :: x in Lefts(b, l.head) ==> x == base
  {
    hide Lawful, KeptFit, TasksFit, Alone, ShapeOnArrival, LabelsKnown, Flowgraph.Live;
    forall t | t in b.Delivered(l.head)
      ensures b.OperandsLeft(l.head, t.Size(), t.stack) == base
    {
      assert t in Among(b.reachDef, l.head) && Fit(b, l.head, t.Size(), b.loops.Keys) && t in b.states;
      assert Stacks(b.states)[t] == t.stack;
      ArrivedSizes(l.head, t.Size(), b.results);
    }
  }

  lemma ArrivedSizes(n: Node, sh: Shape, results: nat)
    requires n.inst.LoopHead? && ShapeOnArrival(n, sh, results).Some?
    ensures ShapeOnArrival(n, sh, results).value.height <= sh.height
  {
    PopLabelLowers(n.inst.name, sh.height, sh.labels);
  }

  // What has been saved for the head before the visit.
  ghost predicate SavedWith(l: Loop, base: seq<Definition>, loops: map<Node, ReachDefinition>, cache: map<Node, ReachDefinition>, lefts: set<seq<Definition>>)
    reads loops.Values, cache.Values
  {
    l.head in loops ==> loops[l.head].stack == base && l.head in cache && cache[l.head].stack == base && forall x :: x in lefts ==> x == base
  }

  ghost function NextBase(how: Outcome, base: seq<Definition>, ops: seq<Definition>): seq<Definition> {
    if how.New? then ops else base
  }

  lemma HeadBased(b: Builder, l: Loop, base: seq<Definition>, was: Before, loops: map<Node, ReachDefinition>, cache: map<Node, ReachDefinition>,
                  lefts: set<seq<Definition>>, how: Outcome, stack: seq<Node>, ops: seq<Definition>, sent: map<CfgEdge, ReachDefinition>,
                  stacks: map<ReachDefinition, seq<Definition>>)
    requires Became(b, was, l.head, how, stack, sent) && (how == New <==> how != Held && l.head !in loops) && KeptFit(b, b.loops, b.cache)
    requires if how == Held then b.loops == loops && b.cache == cache else OperandsWent(b, l.head, how, lefts, loops, cache, ops, sent)
    requires SavedWith(l, base, loops, cache, lefts) && BasedIn(l, base, l.head in loops, was.reachDef, stacks)
    requires Untouched(b, was.reachDef, l.head, stacks) && WaitsOnce(was, l.head) && was.states <= b.states
    requires how == Held ==> forall t :: t in Among(was.reachDef, l.head) && t in stacks ==> t in b.states && t.stack == stacks[t]
    ensures Based(b, l, NextBase(how, base, ops)) && (how == Changed ==> l.head in loops && l.head in b.loops && b.loops[l.head].stack == loops[l.head].stack)
  {
    hide EndsWith, GoneOn, KeptFit;
    HeadSaved(b, l, base, how, loops, cache, lefts, ops, sent);
    var next := NextBase(how, base, ops);
    if how == Held || how == Stayed {
      forall m, t | m in l.body && t in Among(b.reachDef, m)
        ensures t in b.states && if l.head in b.loops then EndsWith(t.stack, next) else m == l.head
      {
        if m == l.head && how == Stayed {
          assert t in b.Delivered(l.head) && t in Among(was.reachDef, l.head);
          AllEnds(next);
        } else {
          assert t in Among(was.reachDef, m) && t in stacks;
        }
      }
    } else {
      AllEnds(next);
      BasedOn(b, l, next, was, l.head, sent, true, stacks);
    }
  }

  lemma AllEnds(base: seq<Definition>)
    ensures EndsWith(base, base)
  {
  }

  lemma HeadSaved(b: Builder, l: Loop, base: seq<Definition>, how: Outcome, loops: map<Node, ReachDefinition>, cache: map<Node, ReachDefinition>,
                  lefts: set<seq<Definition>>, ops: seq<Definition>, sent: map<CfgEdge, ReachDefinition>)
    requires (how == New <==> how != Held && l.head !in loops) && KeptFit(b, b.loops, b.cache) && SavedWith(l, base, loops, cache, lefts)
    requires if how == Held then b.loops == loops && b.cache == cache else OperandsWent(b, l.head, how, lefts, loops, cache, ops, sent)
    ensures SavedOn(b, l, NextBase(how, base, ops)) && (l.head in b.loops <==> how != Held || l.head in loops)
    ensures how != Held ==> NextBase(how, base, ops) == ops && (how != Stayed ==> forall e :: e in sent ==> sent[e].stack == ops)
    ensures how == Stayed ==> forall t :: t in b.Delivered(l.head) ==> t.stack == ops
    ensures how == Changed ==> l.head in loops && b.loops[l.head].stack == loops[l.head].stack
  {
    if l.head in b.loops {
      KeptSizes(b, l.head);
    }
  }
}

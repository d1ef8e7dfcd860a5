// What `construct` returning true means for the list that it has walked, be
// it the body of a function, of a block or a loop, or the arm of an if: control
// does not come to its end but through the join of the if/else that stopped
// the walk.
module CutLists {
  import opened Wrappers
  import opened Lowering
  import opened Machine
  import opened LoweringCorrect

  // ----- runs inside a list -----

  predicate HasName(e: Expr, name: string) {
    (e.Block? || e.Loop? || e.If?) && e.name == name
  }

  // The label that a branch looks for lies above `base`.
  predicate JumpStays(target: string, ctrl: Control, base: Control) {
    ctrl != base && ctrl.Label? && (HasName(ctrl.e, target) || JumpStays(target, ctrl.outer, base))
  }

  // The step ends the run of the list that was entered under `base`.
  predicate Leaves(c: Config, base: Control, tag: Tag) {
    match c
    case Run(Nil, ctrl) => ctrl == base
    case Run(Cons(e, _), ctrl) =>
      (match e
       case Return => true
       case Unreachable(_) => true
       case Br(_, target) => !JumpStays(target, ctrl, base)
       case BrIf(_, target) => tag == True && !JumpStays(target, ctrl, base)
       case BrTable(_, targets, default) =>
         !JumpStays(if tag.Case? && tag.index < |targets| then targets[tag.index] else default, ctrl, base)
       case _ => false)
    case _ => false
  }

  function StepOn(c: Config, base: Control, tag: Tag): Option<Config> {
    if Leaves(c, base, tag) then None else Step(c, tag)
  }

  // The machine's steps, as long as control stays in the list.
  function RunOn(c: Config, base: Control, tags: seq<Tag>): Option<Config>
    decreases |tags|
  {
    if tags == [] then Some(c)
    else
      var next := StepOn(c, base, tags[0]);
      if next.None? then None else RunOn(next.value, base, tags[1..])
  }

  ghost predicate Reaches(c: Config, base: Control, d: Config) {
    exists tags :: RunOn(c, base, tags) == Some(d)
  }

  // ----- where the walk of the list ends -----

  // The part of the list from the instruction on that stops the walk.
  ghost function Stopping(es: ExprList, blocks: seq<Binding>): (rest: ExprList)
    requires Cut(es, blocks)
    ensures rest.Cons? && Ends(rest.head, blocks) == Stop(true)
  {
    if Ends(es.head, blocks).Stop? then es else Stopping(es.tail, blocks)
  }

  // A part of the list that the walk has come to.
  ghost predicate Walked(es: ExprList, blocks: seq<Binding>, rest: ExprList) {
    rest == es || (es.Cons? && Ends(es.head, blocks).Go? && Walked(es.tail, blocks, rest))
  }

  // The outermost label above `base`, with what comes after its instruction.
  predicate IsAbove(ctrl: Control, base: Control) {
    ctrl != base && ctrl.Label? && (ctrl.e.Block? || ctrl.e.Loop? || ctrl.e.If?) && (ctrl.outer == base || IsAbove(ctrl.outer, base))
  }

  function Depth(ctrl: Control): nat {
    if ctrl.Bottom? then 0 else 1 + Depth(ctrl.outer)
  }

  lemma {:induction false} AboveIsDeeper(ctrl: Control, base: Control)
    requires ctrl == base || IsAbove(ctrl, base)
    ensures Depth(ctrl) >= Depth(base) && forall e, after :: Label(e, after, ctrl) != base
    decreases ctrl
  {
    if ctrl != base {
      AboveIsDeeper(ctrl.outer, base);
    }
    forall e, after
      ensures Label(e, after, ctrl) != base
    {
      assert Depth(Label(e, after, ctrl)) > Depth(base);
    }
  }

  function Outermost(ctrl: Control, base: Control): ExprList
    requires IsAbove(ctrl, base)
  {
    if ctrl.outer == base then Cons(ctrl.e, ctrl.after) else Outermost(ctrl.outer, base)
  }

  // Control is in a part of the list that the walk has come to.
  ghost predicate Behind(es: ExprList, base: Control, c: Config) {
    match c
    case Run(code, ctrl) => if ctrl == base then Walked(es, Blocks(base), code) else IsAbove(ctrl, base) && Walked(es, Blocks(base), Outermost(ctrl, base))
    case Arm(e, _, after, ctrl) =>
      e.If? && if ctrl == base then Walked(es, Blocks(base), Cons(e, after)) else IsAbove(ctrl, base) && Walked(es, Blocks(base), Outermost(ctrl, base))
    case _ => false
  }

  // The join of the if/else that stopped the walk.
  ghost function JoinOf(es: ExprList, base: Control): Config
    requires Cut(es, Blocks(base))
  {
    var rest := Stopping(es, Blocks(base));
    Run(Nil, Label(rest.head, rest.tail, base))
  }

  lemma {:induction false} WalkedOn(es: ExprList, blocks: seq<Binding>, rest: ExprList)
    requires Walked(es, blocks, rest) && rest.Cons? && Ends(rest.head, blocks).Go?
    ensures Walked(es, blocks, rest.tail)
  {
    if rest != es {
      WalkedOn(es.tail, blocks, rest);
    } else {
      assert Walked(es.tail, blocks, es.tail);
    }
  }

  // The walk of a cut list comes to a stop before its end.
  lemma {:induction false} WalkedStops(es: ExprList, blocks: seq<Binding>, rest: ExprList)
    requires Cut(es, blocks) && Walked(es, blocks, rest)
    ensures rest.Cons? && (Ends(rest.head, blocks).Stop? ==> rest == Stopping(es, blocks)) && Cut(rest, blocks)
  {
    if rest != es {
      WalkedStops(es.tail, blocks, rest);
    }
  }

  lemma {:induction false} JumpAbove(target: string, ctrl: Control, base: Control)
    requires JumpStays(target, ctrl, base) && IsAbove(ctrl, base)
    ensures Jump(target, ctrl).Run?
    ensures var c := Jump(target, ctrl);
            if c.ctrl == base then c.code == Outermost(ctrl, base) else IsAbove(c.ctrl, base) && Outermost(c.ctrl, base) == Outermost(ctrl, base)
    decreases ctrl
  {
    if !HasName(ctrl.e, target) {
      JumpAbove(target, ctrl.outer, base);
    }
  }

  lemma StepBehind(es: ExprList, base: Control, c: Config, tag: Tag)
    requires Cut(es, Blocks(base)) && Behind(es, base, c) && c != JoinOf(es, base) && StepOn(c, base, tag).Some?
    ensures Behind(es, base, StepOn(c, base, tag).value)
  {
    AboveIsDeeper(c.ctrl, base);
    match c
    case Run(Nil, ctrl) =>
      if ctrl.outer == base {
        WalkedStops(es, Blocks(base), Outermost(ctrl, base));
        WalkedOn(es, Blocks(base), Outermost(ctrl, base));
      }
    case Run(Cons(e, rest), ctrl) =>
      if ctrl == base {
        StepFromBase(es, base, e, rest, tag);
      } else {
        StepFromAbove(es, base, c, tag);
      }
    case Arm(_, _, _, _) =>
  }

  lemma StepFromBase(es: ExprList, base: Control, e: Expr, rest: ExprList, tag: Tag)
    requires Cut(es, Blocks(base)) && Walked(es, Blocks(base), Cons(e, rest)) && StepOn(Run(Cons(e, rest), base), base, tag).Some?
    ensures Behind(es, base, StepOn(Run(Cons(e, rest), base), base, tag).value)
  {
    AboveIsDeeper(base, base);
    WalkedStops(es, Blocks(base), Cons(e, rest));
    if e.Plain? || e.BrIf? {
      WalkedOn(es, Blocks(base), Cons(e, rest));
    }
  }

  lemma StepFromAbove(es: ExprList, base: Control, c: Config, tag: Tag)
    requires c.Run? && c.code.Cons? && c.ctrl != base && Behind(es, base, c) && StepOn(c, base, tag).Some?
    ensures Behind(es, base, StepOn(c, base, tag).value)
  {
    AboveIsDeeper(c.ctrl, base);
    match c.code.head
    case Br(_, target) => JumpAbove(target, c.ctrl, base);
    case BrIf(_, target) =>
      if tag == True {
        JumpAbove(target, c.ctrl, base);
      }
    case BrTable(_, targets, default) =>
      JumpAbove(if tag.Case? && tag.index < |targets| then targets[tag.index] else default, c.ctrl, base);
    case _ =>
  }

  // A run either stays behind the stop or comes to that join.
  lemma {:induction false} BehindOrJoined(es: ExprList, base: Control, c: Config, tags: seq<Tag>) returns (i: nat)
    requires Cut(es, Blocks(base)) && Behind(es, base, c) && RunOn(c, base, tags).Some?
    ensures i <= |tags| && (Behind(es, base, RunOn(c, base, tags).value) || RunOn(c, base, tags[..i]) == Some(JoinOf(es, base)))
    decreases |tags|
  {
    i := 0;
    if c != JoinOf(es, base) && tags != [] {
      StepBehind(es, base, c, tags[0]);
      var j := BehindOrJoined(es, base, StepOn(c, base, tags[0]).value, tags[1..]);
      assert tags[..j + 1][1..] == tags[1..][..j] && tags[..j + 1][0] == tags[0];
      i := j + 1;
    }
  }

  lemma {:induction false} OneMoreStep(c: Config, base: Control, tags: seq<Tag>, tag: Tag)
    requires RunOn(c, base, tags).Some? && StepOn(RunOn(c, base, tags).value, base, tag).Some?
    ensures RunOn(c, base, tags + [tag]) == StepOn(RunOn(c, base, tags).value, base, tag)
    decreases |tags|
  {
    if tags != [] {
      OneMoreStep(StepOn(c, base, tags[0]).value, base, tags[1..], tag);
      assert (tags + [tag])[1..] == tags[1..] + [tag];
    }
  }

  lemma {:induction false} ShorterBehind(rest: ExprList, es: ExprList, blocks: seq<Binding>)
    requires Cut(es, blocks) && Walked(es, blocks, rest)
    ensures rest != Stopping(es, blocks).tail && rest != Nil
    decreases es
  {
    WalkedStops(es, blocks, rest);
    if rest == Stopping(es, blocks).tail {
      StopsOnce(es, blocks, rest);
    }
  }

  // The list after the stop has not been walked.
  lemma {:induction false} StopsOnce(es: ExprList, blocks: seq<Binding>, rest: ExprList)
    requires Cut(es, blocks) && Walked(es, blocks, rest)
    ensures Length(rest) > Length(Stopping(es, blocks).tail)
    decreases es
  {
    if rest != es {
      StopsOnce(es.tail, blocks, rest);
    } else {
      StopIsPart(es, blocks);
    }
  }

  function Length(es: ExprList): nat {
    if es.Nil? then 0 else 1 + Length(es.tail)
  }

  lemma {:induction false} StopIsPart(es: ExprList, blocks: seq<Binding>)
    requires Cut(es, blocks)
    ensures Length(Stopping(es, blocks).tail) < Length(es)
    decreases es
  {
    if Ends(es.head, blocks).Go? {
      StopIsPart(es.tail, blocks);
    }
  }

  // Control gets past the instruction that stopped the walk of a list exactly
  // if it comes to the join of that instruction, which is then an if/else
  // whose arms are both cut. It falls off the end of the list only so.
  lemma CutListIsLeftByJoin(es: ExprList, base: Control)
    requires Cut(es, Blocks(base))
    ensures var start, rest := Run(es, base), Stopping(es, Blocks(base));
            && (Reaches(start, base, Run(rest.tail, base)) <==> Reaches(start, base, JoinOf(es, base)))
            && (Reaches(start, base, Run(Nil, base)) ==> Reaches(start, base, JoinOf(es, base)))
            && (Reaches(start, base, JoinOf(es, base)) ==> rest.head.If?)
  {
    var start, rest := Run(es, base), Stopping(es, Blocks(base));
    AboveIsDeeper(base, base);
    forall d, tags | RunOn(start, base, tags) == Some(d) && (d == Run(rest.tail, base) || d == Run(Nil, base))
      ensures Reaches(start, base, JoinOf(es, base))
    {
      var i := BehindOrJoined(es, base, start, tags);
      if Behind(es, base, d) {
        ShorterBehind(d.code, es, Blocks(base));
      }
      assert RunOn(start, base, tags[..i]) == Some(JoinOf(es, base));
    }
    if tags :| RunOn(start, base, tags) == Some(JoinOf(es, base)) {
      OneMoreStep(start, base, tags, Next);
      assert RunOn(start, base, tags + [Next]) == Some(Run(rest.tail, base));
      JoinIsOfIf(es, base, start, tags);
    }
  }

  lemma {:induction false} JoinIsOfIf(es: ExprList, base: Control, c: Config, tags: seq<Tag>)
    requires Cut(es, Blocks(base)) && Behind(es, base, c) && RunOn(c, base, tags) == Some(JoinOf(es, base))
    ensures Stopping(es, Blocks(base)).head.If?
    decreases |tags|
  {
    AboveIsDeeper(base, base);
    if c != JoinOf(es, base) {
      StepBehind(es, base, c, tags[0]);
      JoinIsOfIf(es, base, StepOn(c, base, tags[0]).value, tags[1..]);
    }
  }
}

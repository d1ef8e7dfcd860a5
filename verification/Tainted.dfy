// Whether a parameter can carry data from outside (src/queries/isTainted.cc).
module Tainted {
  import opened Wrappers
  import opened Graphs
  import opened Query

  datatype Info = Function(name: string, exported: bool) | Parameters | Parameter(name: string, index: nat) | Call | Other

  // `tainted` lists parameters of configured functions.
  datatype Config = Config(tainted: map<string, set<nat>>, exportedAsSinks: bool, whitelist: set<string>)

  datatype Answer = Tainted(param: string, func: string) | Clean | Aborted

  // A parameter and the function it belongs to.
  datatype Link = Link(param: nat, func: nat)

  predicate IsLocal(e: Edge) {
    e.Pdg? && e.pdgType == Local
  }

  // The nodes of a graph, with the queries that the search is made of.
  datatype Nodes = Nodes(info: map<nat, Info>) {
    function IsFunction(): nat -> bool {
      n => n in info && info[n].Function?
    }

    function IsCallEdge(): Edge -> bool {
      (e: Edge) => e.Cg? && e.src in info && info[e.src].Call?
    }

    predicate IsParameter(n: nat) {
      n in info && info[n].Parameter?
    }

    ghost predicate InFunction(edges: seq<Edge>, n: nat, f: nat) {
      IsFunction()(f) && (n == f || Reached(edges, IsAst, true, [n], f))
    }

    ghost predicate ParameterOf(edges: seq<Edge>, f: nat, p: nat) {
      && Children(edges, f) != []
      && exists ps :: ps in info && info[ps].Parameters? && Ast(Children(edges, f)[0], ps) in edges && Ast(ps, p) in edges
    }

    // A call of the function passes `arg` for the parameter.
    ghost predicate IsArgument(edges: seq<Edge>, l: Link, arg: nat)
      requires IsParameter(l.param)
    {
      exists call :: Calls(edges, l, call, arg)
    }

    ghost predicate Calls(edges: seq<Edge>, l: Link, call: nat, arg: nat)
      requires IsParameter(l.param)
    {
      && call in info && info[call].Call? && Cg(call, l.func) in edges
      && info[l.param].index < |Children(edges, call)| && Children(edges, call)[info[l.param].index] == arg
    }

    // The argument depends on a local variable that is a parameter of the
    // function around it.
    ghost predicate DependsOn(edges: seq<Edge>, arg: nat, p: nat) {
      && IsParameter(p) && LocalAt(edges, arg, info[p].name)
      && exists f :: InFunction(edges, arg, f) && ParameterOf(edges, f, p)
    }

    // Every call of the function has a child where the parameter's argument
    // is looked for.
    ghost predicate CallsReach(edges: seq<Edge>, l: Link)
      requires IsParameter(l.param)
    {
      forall call :: call in info && info[call].Call? && Cg(call, l.func) in edges ==> info[l.param].index < |Children(edges, call)|
    }

    ghost predicate IsHolder(edges: seq<Edge>, f: nat, ps: nat) {
      Children(edges, f) != [] && ps in info && info[ps].Parameters? && Ast(Children(edges, f)[0], ps) in edges
    }

    // The function has a first child, and under it one list of parameters at
    // most.
    ghost predicate HasList(edges: seq<Edge>, f: nat) {
      Children(edges, f) != [] && forall ps, qs :: IsHolder(edges, f, ps) && IsHolder(edges, f, qs) ==> ps == qs
    }

    // Some function contains the argument, and such functions have lists of
    // parameters.
    ghost predicate InOrder(edges: seq<Edge>, arg: nat) {
      (exists f :: InFunction(edges, arg, f)) && forall f :: InFunction(edges, arg, f) ==> HasList(edges, f)
    }

    // The search cannot go on from the link.
    ghost predicate Stuck(edges: seq<Edge>, l: Link) {
      IsParameter(l.param) && (!CallsReach(edges, l) || exists arg :: IsArgument(edges, l, arg) && !InOrder(edges, arg))
    }

    // As in a syntax tree, no node lies in two functions.
    ghost predicate OneFunction(edges: seq<Edge>) {
      forall n, f, h :: InFunction(edges, n, f) && InFunction(edges, n, h) ==> f == h
    }

    ghost predicate IsLink(edges: seq<Edge>, l: Link) {
      IsParameter(l.param) && InFunction(edges, l.param, l.func)
    }

    ghost predicate Passes(edges: seq<Edge>, l: Link, p: nat) {
      IsParameter(l.param) && exists arg :: IsArgument(edges, l, arg) && DependsOn(edges, arg, p)
    }

    function Name(l: Link): string {
      if IsFunction()(l.func) then info[l.func].name else ""
    }

    // The parameter is a source of outside data by itself.
    predicate IsSource(config: Config, l: Link) {
      && IsFunction()(l.func) && IsParameter(l.param)
      && if Name(l) in config.tainted then info[l.param].index in config.tainted[Name(l)]
         else config.exportedAsSinks && info[l.func].exported && Name(l) !in config.whitelist
    }

    ghost function Relate(edges: seq<Edge>, config: Config): Relations {
      Relations(l => IsLink(edges, l), l => Name(l), (l, p: nat) => Passes(edges, l, p), l => IsSource(config, l))
    }
  }

  // What makes a chain, apart from the graph that it comes from.
  datatype Relations = Relations(isLink: Link -> bool, name: Link -> string, passes: (Link, nat) -> bool, isSource: Link -> bool) {

    // A chain of parameters from `param`, through functions of different
    // names, none of them in `visited`, to a source.
    ghost predicate IsChain(visited: set<string>, chain: seq<Link>, param: nat, last: Link) {
      IsTrail(visited, chain, param, last) && isSource(last)
    }

    // The same, wherever it ends.
    ghost predicate IsTrail(visited: set<string>, chain: seq<Link>, param: nat, last: Link) {
      && chain != [] && chain[0].param == param && chain[|chain| - 1] == last
      && (forall i :: 0 <= i < |chain| ==> isLink(chain[i]) && name(chain[i]) !in visited)
      && (forall i, j :: 0 <= i < j < |chain| ==> name(chain[i]) != name(chain[j]))
      && (forall i :: 0 <= i < |chain| - 1 ==> passes(chain[i], chain[i + 1].param))
    }

    ghost predicate Reaches(visited: set<string>, param: nat, last: Link) {
      exists chain :: IsChain(visited, chain, param, last)
    }

    ghost predicate ComesTo(visited: set<string>, param: nat, last: Link) {
      exists chain :: IsTrail(visited, chain, param, last)
    }

    lemma ComesToItself(visited: set<string>, l: Link)
      requires isLink(l) && name(l) !in visited
      ensures ComesTo(visited, l.param, l)
    {
      assert IsTrail(visited, [l], l.param, l);
    }

    lemma SourceReaches(visited: set<string>, l: Link)
      requires isLink(l) && name(l) !in visited && isSource(l)
      ensures Reaches(visited, l.param, l)
    {
      assert IsChain(visited, [l], l.param, l);
    }

    lemma OneMoreOnTrail(visited: set<string>, more: set<string>, l: Link, chain: seq<Link>, p: nat, last: Link)
      requires isLink(l) && name(l) !in visited && passes(l, p)
      requires visited + {name(l)} <= more && IsTrail(more, chain, p, last)
      ensures IsTrail(visited, [l] + chain, l.param, last)
    {
      var longer := [l] + chain;
      forall i | 0 <= i < |longer| - 1
        ensures passes(longer[i], longer[i + 1].param)
      {
        assert i > 0 ==> passes(chain[i - 1], chain[i - 1 + 1].param);
      }
    }

    lemma OneMoreReaches(visited: set<string>, more: set<string>, l: Link, p: nat, last: Link)
      requires isLink(l) && name(l) !in visited && passes(l, p)
      requires visited + {name(l)} <= more && Reaches(more, p, last)
      ensures Reaches(visited, l.param, last)
    {
      var chain: seq<Link> :| IsChain(more, chain, p, last);
      OneMoreOnTrail(visited, more, l, chain, p, last);
      assert IsChain(visited, [l] + chain, l.param, last);
    }

    lemma OneMoreComesTo(visited: set<string>, more: set<string>, l: Link, p: nat, last: Link)
      requires isLink(l) && name(l) !in visited && passes(l, p)
      requires visited + {name(l)} <= more && ComesTo(more, p, last)
      ensures ComesTo(visited, l.param, last)
    {
      var chain: seq<Link> :| IsTrail(more, chain, p, last);
      OneMoreOnTrail(visited, more, l, chain, p, last);
    }

    // What a search that finds nothing has looked at: links of functions that
    // are new, none of them a source. Whatever they pass on to was looked at,
    // too, or its function was known by then.
    ghost predicate Searched(visited: set<string>, after: set<string>, seen: set<Link>) {
      && (forall l :: l in seen ==> isLink(l) && name(l) in after && name(l) !in visited && !isSource(l))
      && (forall l, m :: l in seen && isLink(m) && passes(l, m.param) ==> name(m) in after)
      && (forall x :: x in after && x !in visited ==> exists l :: l in seen && name(l) == x)
    }

    ghost predicate Covered(visited: set<string>, after: set<string>, seen: set<Link>, param: nat) {
      forall l :: isLink(l) && l.param == param ==> name(l) in after && (name(l) in visited || l in seen)
    }

    lemma SearchedBoth(visited: set<string>, between: set<string>, after: set<string>, seen: set<Link>, more: set<Link>)
      requires visited <= between <= after && Searched(visited, between, seen) && Searched(between, after, more)
      ensures Searched(visited, after, seen + more)
    {
      forall x | x in after && x !in visited
        ensures exists l :: l in seen + more && name(l) == x
      {
        if x in between {
          var l :| l in seen && name(l) == x;
          assert l in seen + more;
        } else {
          var l :| l in more && name(l) == x;
          assert l in seen + more;
        }
      }
    }

    lemma OneMoreSearched(visited: set<string>, after: set<string>, seen: set<Link>, l: Link)
      requires isLink(l) && name(l) !in visited && !isSource(l) && visited + {name(l)} <= after && Searched(visited + {name(l)}, after, seen)
      requires forall m :: isLink(m) && passes(l, m.param) ==> name(m) in after
      ensures Searched(visited, after, seen + {l})
    {
      forall x | x in after && x !in visited
        ensures exists k :: k in seen + {l} && name(k) == x
      {
        if x == name(l) {
          assert l in seen + {l};
        } else {
          var k :| k in seen && name(k) == x;
          assert k in seen + {l};
        }
      }
    }

    lemma NothingSearched(visited: set<string>)
      ensures Searched(visited, visited, {})
    {
    }

    // A chain that such a search has missed goes through a function that was
    // searched for another parameter.
    lemma CutOff(visited: set<string>, after: set<string>, seen: set<Link>, chain: seq<Link>, param: nat, last: Link) returns (i: nat, l: Link)
      requires Searched(visited, after, seen) && Covered(visited, after, seen, param) && IsChain(visited, chain, param, last)
      ensures 0 < i < |chain| && chain[i] !in seen && l in seen && name(l) == name(chain[i])
    {
      i := 0;
      assert chain[0] in seen;
      while i < |chain| - 1 && chain[i + 1] in seen
        invariant i < |chain| && chain[i] in seen
      {
        i := i + 1;
      }
      assert i < |chain| - 1;
      assert passes(chain[i], chain[i + 1].param);
      i := i + 1;
      l :| l in seen && name(l) == name(chain[i]);
    }

    // Where no function has two parameters, nothing was missed.
    lemma NothingMissed(visited: set<string>, after: set<string>, seen: set<Link>, param: nat)
      requires Searched(visited, after, seen) && Covered(visited, after, seen, param)
      requires forall l, m :: isLink(l) && isLink(m) && name(l) == name(m) ==> l == m
      ensures forall last :: !Reaches(visited, param, last)
    {
      hide Searched, Covered;
      forall last, chain | IsChain(visited, chain, param, last)
        ensures false
      {
        var i, l := CutOff(visited, after, seen, chain, param, last);
        IsSeen(visited, after, seen, l);
      }
    }

    lemma IsSeen(visited: set<string>, after: set<string>, seen: set<Link>, l: Link)
      requires Searched(visited, after, seen) && l in seen
      ensures isLink(l)
    {
    }
  }

  ghost predicate LocalAt(edges: seq<Edge>, arg: nat, name: string) {
    exists e :: e in edges && IsLocal(e) && (e.src == arg || e.dst == arg) && e.pdgLabel == name
  }

  ghost predicate Valid(g: Graph, nodes: Nodes)
    reads g
  {
    && g.Valid() && (forall n: nat :: n in nodes.info <==> n < g.count)
    && (forall e :: e in g.made && e.Ast? && nodes.info[e.src].Parameters? ==> nodes.IsParameter(e.dst))
  }

  // Query::function
  method FunctionOf(g: Graph, nodes: Nodes, n: nat) returns (f: Option<nat>)
    requires Valid(g, nodes) && n < g.count
    ensures f.Some? ==> nodes.InFunction(g.made, n, f.value)
    ensures f.None? ==> forall h :: !nodes.InFunction(g.made, n, h)
  {
    hide BreadthFirst, IncludesResult, Filtered, Nodes.InFunction;
    var found := BfsIncludes(g, [n], nodes.IsFunction(), IsAst, 1, true);
    ghost var order :| BreadthFirst(g.made, IsAst, true, [n], order)
                       && found == IncludesResult(Filtered([n], nodes.IsFunction()), Filtered(order, nodes.IsFunction()), 1);
    if found == {} {
      NoFunction(g.made, nodes, n, order);
      return None;
    }
    var h :| h in found;
    FunctionFound(g.made, nodes, n, order, h);
    return Some(h);
  }

  lemma FunctionFound(edges: seq<Edge>, nodes: Nodes, n: nat, order: seq<nat>, h: nat)
    requires BreadthFirst(edges, IsAst, true, [n], order)
    requires h in IncludesResult(Filtered([n], nodes.IsFunction()), Filtered(order, nodes.IsFunction()), 1)
    ensures nodes.InFunction(edges, n, h)
  {
    hide Reached;
    assert h in Filtered([n], nodes.IsFunction()) || h in Filtered(order, nodes.IsFunction());
  }

  lemma HasFirst(s: seq<nat>)
    requires s != []
    ensures Elements(s[..1]) != {}
  {
    assert s[0] in Elements(s[..1]);
  }

  lemma NoFunction(edges: seq<Edge>, nodes: Nodes, n: nat, order: seq<nat>)
    requires BreadthFirst(edges, IsAst, true, [n], order)
    requires IncludesResult(Filtered([n], nodes.IsFunction()), Filtered(order, nodes.IsFunction()), 1) == {}
    ensures forall h :: !nodes.InFunction(edges, n, h)
  {
    var eval := nodes.IsFunction();
    var own, behind := Filtered([n], eval), Filtered(order, eval);
    if own != [] {
      HasFirst(own);
    } else if behind != [] {
      HasFirst(behind);
    }
    forall h
      ensures !nodes.InFunction(edges, n, h)
    {
      MatchesAreReached(edges, IsAst, true, [n], eval, h);
    }
  }

  // The arguments that calls of the function pass for the parameter. False
  // exactly where a call has too few children.
  method Arguments(g: Graph, nodes: Nodes, l: Link) returns (ok: bool, args: set<nat>)
    requires Valid(g, nodes) && nodes.IsLink(g.made, l)
    ensures ok <==> nodes.CallsReach(g.made, l)
    ensures ok ==> forall a :: a in args <==> nodes.IsArgument(g.made, l, a)
  {
    hide Step;
    ghost var edges := g.made;
    var calls := NextOfAll(g, nodes.IsCallEdge(), true, [l.func]);
    CallersCall(edges, nodes, l, calls);
    args := {};
    ghost var all, passed: map<nat, nat> := calls, map[];
    while calls != {}
      invariant calls <= all && passed.Keys == all - calls && args == passed.Values
      invariant forall call :: call in passed ==> Passed(edges, nodes, l, call, passed[call])
      decreases calls
    {
      var call :| call in calls;
      var arg := ArgumentOf(g, nodes, l, call);
      if arg.None? {
        assert IsCaller(edges, nodes, l, call);
        return false, args;
      }
      AddedValue(passed, call, arg.value);
      args, passed := args + {arg.value}, passed[call := arg.value];
      calls := calls - {call};
    }
    AllPassed(edges, nodes, l, passed);
    forall call | IsCaller(edges, nodes, l, call)
      ensures nodes.info[l.param].index < |Children(edges, call)|
    {
      assert call in passed && Passed(edges, nodes, l, call, passed[call]);
    }
    return true, args;
  }

  // getChild
  method ArgumentOf(g: Graph, nodes: Nodes, l: Link, call: nat) returns (arg: Option<nat>)
    requires Valid(g, nodes) && nodes.IsParameter(l.param) && call < g.count
    ensures arg.Some? <==> nodes.info[l.param].index < |Children(g.made, call)|
    ensures arg.Some? ==> Passed(g.made, nodes, l, call, arg.value)
  {
    var children := Neighbours(g, IsAst, false, call);
    var index := nodes.info[l.param].index;
    return if index < |children| then Some(children[index]) else None;
  }

  ghost predicate Passed(edges: seq<Edge>, nodes: Nodes, l: Link, call: nat, arg: nat)
    requires nodes.IsParameter(l.param)
  {
    var index := nodes.info[l.param].index;
    index < |Children(edges, call)| && Children(edges, call)[index] == arg
  }

  lemma AddedValue(passed: map<nat, nat>, call: nat, arg: nat)
    requires call !in passed
    ensures passed[call := arg].Values == passed.Values + {arg}
  {
    assert passed[call := arg][call] == arg;
    forall c | c in passed
      ensures passed[call := arg][c] == passed[c]
    {
    }
  }

  lemma AllPassed(edges: seq<Edge>, nodes: Nodes, l: Link, passed: map<nat, nat>)
    requires nodes.IsParameter(l.param) && forall call :: call in passed <==> IsCaller(edges, nodes, l, call)
    requires forall call :: call in passed ==> Passed(edges, nodes, l, call, passed[call])
    ensures forall a :: a in passed.Values <==> nodes.IsArgument(edges, l, a)
  {
    forall a
      ensures a in passed.Values <==> nodes.IsArgument(edges, l, a)
    {
      if a in passed.Values {
        var call :| call in passed && passed[call] == a;
        assert nodes.Calls(edges, l, call, a);
      }
      if nodes.IsArgument(edges, l, a) {
        var call :| nodes.Calls(edges, l, call, a);
        assert IsCaller(edges, nodes, l, call);
      }
    }
  }

  ghost predicate IsCaller(edges: seq<Edge>, nodes: Nodes, l: Link, call: nat) {
    call in nodes.info && nodes.info[call].Call? && Cg(call, l.func) in edges
  }

  lemma CallersCall(edges: seq<Edge>, nodes: Nodes, l: Link, calls: set<nat>)
    requires forall n :: n in calls <==> exists m :: m in [l.func] && Step(edges, nodes.IsCallEdge(), true, m, n)
    ensures forall call :: call in calls <==> IsCaller(edges, nodes, l, call)
  {
    forall call
      ensures call in calls <==> IsCaller(edges, nodes, l, call)
    {
      if call in calls {
        assert Step(edges, nodes.IsCallEdge(), true, l.func, call);
      }
      if IsCaller(edges, nodes, l, call) {
        var e := Cg(call, l.func);
        assert e in edges && nodes.IsCallEdge()(e);
        assert l.func in [l.func] && Step(edges, nodes.IsCallEdge(), true, l.func, call);
      }
    }
  }

  // Query::parameters, those with one of the names. False exactly where an
  // assertion fails.
  method ParametersOf(g: Graph, nodes: Nodes, f: nat, names: set<string>) returns (ok: bool, params: set<nat>)
    requires Valid(g, nodes) && nodes.IsFunction()(f)
    ensures ok <==> nodes.HasList(g.made, f)
    ensures ok ==> forall p :: p in params <==> nodes.IsParameter(p) && nodes.info[p].name in names && nodes.ParameterOf(g.made, f, p)
  {
    hide Nodes.HasList, Nodes.ParameterOf, Step;
    var children := Neighbours(g, IsAst, false, f);
    if children == [] {
      NoList(g.made, nodes, f);
      return false, {};
    }
    FirstIsNode(g, f);
    var parts := NextOfAll(g, IsAst, false, [children[0]]);
    var holders := set n | n in parts && n in nodes.info && nodes.info[n].Parameters?;
    OneListIs(g.made, nodes, f, parts, holders);
    if |holders| > 1 {
      return false, {};
    }
    if holders == {} {
      NoParameters(g.made, nodes, f, parts, holders);
      return true, {};
    }
    var ps :| ps in holders;
    var all := NextOfAll(g, IsAst, false, [ps]);
    OnlyHolder(holders, ps);
    HeldParameters(g.made, nodes, f, ps, parts, holders, all);
    return true, set p | p in all && nodes.IsParameter(p) && nodes.info[p].name in names;
  }

  lemma FirstIsNode(g: Graph, f: nat)
    requires g.Valid() && Children(g.made, f) != []
    ensures Children(g.made, f)[0] < g.count
  {
    NextIsStep(g.made, IsAst, false, f, Children(g.made, f)[0]);
  }

  lemma NoList(edges: seq<Edge>, nodes: Nodes, f: nat)
    requires Children(edges, f) == []
    ensures !nodes.HasList(edges, f)
  {
  }

  // There is one list of parameters at most where one holder was found.
  lemma OneListIs(edges: seq<Edge>, nodes: Nodes, f: nat, parts: set<nat>, holders: set<nat>)
    requires Children(edges, f) != [] && holders == set n | n in parts && n in nodes.info && nodes.info[n].Parameters?
    requires forall n :: n in parts <==> exists m :: m in [Children(edges, f)[0]] && Step(edges, IsAst, false, m, n)
    ensures nodes.HasList(edges, f) <==> |holders| <= 1
  {
    forall ps
      ensures ps in holders <==> nodes.IsHolder(edges, f, ps)
    {
      HoldersAre(edges, nodes, f, parts, holders, ps);
    }
    if ps :| ps in holders {
      assert holders == {ps} + (holders - {ps}) && |holders| == 1 + |holders - {ps}|;
      if |holders| > 1 {
        var qs :| qs in holders - {ps};
      } else {
        assert holders == {ps};
      }
    }
  }

  lemma OnlyHolder(holders: set<nat>, ps: nat)
    requires |holders| <= 1 && ps in holders
    ensures holders == {ps}
  {
    assert |holders - {ps}| == 0;
  }

  // The holders of parameters are the children of that kind.
  lemma HoldersAre(edges: seq<Edge>, nodes: Nodes, f: nat, parts: set<nat>, holders: set<nat>, ps: nat)
    requires Children(edges, f) != [] && holders == set n | n in parts && n in nodes.info && nodes.info[n].Parameters?
    requires forall n :: n in parts <==> exists m :: m in [Children(edges, f)[0]] && Step(edges, IsAst, false, m, n)
    ensures ps in holders <==> ps in nodes.info && nodes.info[ps].Parameters? && Ast(Children(edges, f)[0], ps) in edges
  {
    var c := Children(edges, f)[0];
    if Ast(c, ps) in edges {
      assert c in [c] && IsAst(Ast(c, ps)) && Step(edges, IsAst, false, c, ps);
    }
  }

  lemma NoParameters(edges: seq<Edge>, nodes: Nodes, f: nat, parts: set<nat>, holders: set<nat>)
    requires Children(edges, f) != [] && holders == set n | n in parts && n in nodes.info && nodes.info[n].Parameters?
    requires forall n :: n in parts <==> exists m :: m in [Children(edges, f)[0]] && Step(edges, IsAst, false, m, n)
    requires holders == {}
    ensures forall p :: !nodes.ParameterOf(edges, f, p)
  {
    forall ps
      ensures !(ps in nodes.info && nodes.info[ps].Parameters? && Ast(Children(edges, f)[0], ps) in edges)
    {
      HoldersAre(edges, nodes, f, parts, holders, ps);
    }
  }

  lemma HeldParameters(edges: seq<Edge>, nodes: Nodes, f: nat, ps: nat, parts: set<nat>, holders: set<nat>, all: set<nat>)
    requires Children(edges, f) != [] && holders == set n | n in parts && n in nodes.info && nodes.info[n].Parameters?
    requires forall n :: n in parts <==> exists m :: m in [Children(edges, f)[0]] && Step(edges, IsAst, false, m, n)
    requires forall n :: n in all <==> exists m :: m in [ps] && Step(edges, IsAst, false, m, n)
    requires holders == {ps}
    ensures forall p :: p in all <==> nodes.ParameterOf(edges, f, p)
  {
    forall p
      ensures p in all <==> nodes.ParameterOf(edges, f, p)
    {
      HoldersAre(edges, nodes, f, parts, holders, ps);
      if p in all {
        assert Ast(Children(edges, f)[0], ps) in edges && Ast(ps, p) in edges;
      }
      if nodes.ParameterOf(edges, f, p) {
        var k :| k in nodes.info && nodes.info[k].Parameters? && Ast(Children(edges, f)[0], k) in edges && Ast(k, p) in edges;
        HoldersAre(edges, nodes, f, parts, holders, k);
        assert ps in [ps] && IsAst(Ast(ps, p)) && Step(edges, IsAst, false, ps, p);
      }
    }
  }

  // The labels of the local dependences at a node.
  function LocalNames(g: Graph, n: nat): set<string>
    reads g
    requires n in g.inEdges && n in g.outEdges
  {
    (set e | e in g.outEdges[n] && IsLocal(e) :: e.pdgLabel) + (set e | e in g.inEdges[n] && IsLocal(e) :: e.pdgLabel)
  }

  method DependentParameters(g: Graph, nodes: Nodes, arg: nat) returns (ok: bool, params: set<nat>)
    requires Valid(g, nodes) && arg < g.count
    ensures ok ==> exists f :: nodes.InFunction(g.made, arg, f) && nodes.HasList(g.made, f)
    ensures nodes.InOrder(g.made, arg) ==> ok
    ensures ok ==> forall p :: p in params ==> nodes.DependsOn(g.made, arg, p)
    ensures ok && nodes.OneFunction(g.made) ==> forall p :: nodes.DependsOn(g.made, arg, p) ==> p in params
  {
    var f := FunctionOf(g, nodes, arg);
    if f.None? {
      return false, {};
    }
    NamesAreLocal(g, arg);
    ok, params := ParametersOf(g, nodes, f.value, LocalNames(g, arg));
  }

  lemma NamesAreLocal(g: Graph, arg: nat)
    requires g.Valid() && arg < g.count
    ensures forall x :: x in LocalNames(g, arg) <==> LocalAt(g.made, arg, x)
  {
    forall x
      ensures x in LocalNames(g, arg) <==> LocalAt(g.made, arg, x)
    {
      if LocalAt(g.made, arg, x) {
        var e :| e in g.made && IsLocal(e) && (e.src == arg || e.dst == arg) && e.pdgLabel == x;
        assert e.src == arg ==> e in g.outEdges[arg];
        assert e.dst == arg ==> e in g.inEdges[arg];
      }
    }
  }

  ghost function FunctionNames(nodes: Nodes): set<string> {
    set n | n in nodes.info && nodes.info[n].Function? :: nodes.info[n].name
  }

  ghost predicate Explained(rel: Relations, nodes: Nodes, visited: set<string>, param: nat, answer: Answer) {
    answer.Tainted? ==> exists last: Link :: nodes.IsParameter(last.param) && rel.Reaches(visited, param, last)
                                       && answer == Tainted(nodes.info[last.param].name, rel.name(last))
  }

  // Some link that the search comes to is one where it cannot go on.
  ghost predicate Gives(rel: Relations, nodes: Nodes, edges: seq<Edge>, visited: set<string>, param: nat) {
    exists l: Link :: rel.ComesTo(visited, param, l) && nodes.Stuck(edges, l)
  }

  lemma GivesHere(rel: Relations, nodes: Nodes, edges: seq<Edge>, visited: set<string>, l: Link)
    requires rel.isLink(l) && rel.name(l) !in visited && nodes.Stuck(edges, l)
    ensures Gives(rel, nodes, edges, visited, l.param)
  {
    rel.ComesToItself(visited, l);
  }

  lemma GivesBehind(rel: Relations, nodes: Nodes, edges: seq<Edge>, visited: set<string>, more: set<string>, l: Link, p: nat)
    requires rel.isLink(l) && rel.name(l) !in visited && visited + {rel.name(l)} <= more && rel.passes(l, p)
    requires Gives(rel, nodes, edges, more, p)
    ensures Gives(rel, nodes, edges, visited, l.param)
  {
    var last: Link :| rel.ComesTo(more, p, last) && nodes.Stuck(edges, last);
    rel.OneMoreComesTo(visited, more, l, p, last);
  }

  // A parameter lies in its function.
  lemma LiesInFunction(edges: seq<Edge>, nodes: Nodes, l: Link, p: nat)
    requires nodes.Passes(edges, l, p)
    ensures exists f :: nodes.InFunction(edges, p, f)
  {
    hide Reached, Nodes.IsArgument, Step;
    var arg :| nodes.IsArgument(edges, l, arg) && nodes.DependsOn(edges, arg, p);
    var f :| nodes.InFunction(edges, arg, f) && nodes.ParameterOf(edges, f, p);
    var c := Children(edges, f)[0];
    var ps :| ps in nodes.info && nodes.info[ps].Parameters? && Ast(c, ps) in edges && Ast(ps, p) in edges;
    UpStep(edges, ps, p);
    UpStep(edges, c, ps);
    ChildrenRise(edges, f);
    UpStep(edges, f, c);
    ReachedOneMore(edges, IsAst, true, [p], p, ps);
    ReachedOneMore(edges, IsAst, true, [p], ps, c);
    ReachedOneMore(edges, IsAst, true, [p], c, f);
    assert nodes.InFunction(edges, p, f);
  }

  lemma UpStep(edges: seq<Edge>, m: nat, n: nat)
    requires Ast(m, n) in edges
    ensures Step(edges, IsAst, true, n, m)
  {
    assert IsAst(Ast(m, n));
  }

  lemma PassedOn(rel: Relations, nodes: Nodes, visited: set<string>, more: set<string>, l: Link, p: nat, answer: Answer)
    requires rel.isLink(l) && rel.name(l) !in visited && visited + {rel.name(l)} <= more && rel.passes(l, p)
    requires Explained(rel, nodes, more, p, answer)
    ensures Explained(rel, nodes, visited, l.param, answer)
  {
    if answer.Tainted? {
      var last: Link :| nodes.IsParameter(last.param) && rel.Reaches(more, p, last) && answer == Tainted(nodes.info[last.param].name, rel.name(last));
      rel.OneMoreReaches(visited, more, l, p, last);
    }
  }

  // The search has found nothing: no chain was missed but those cut off.
  ghost predicate Finished(rel: Relations, visited: set<string>, after: set<string>, seen: set<Link>, param: nat) {
    rel.Searched(visited, after, seen) && rel.Covered(visited, after, seen, param)
  }

  // The functions of a parameter that was searched are known.
  lemma FunctionsKnown(g: Graph, nodes: Nodes, config: Config, visited: set<string>, after: set<string>, seen: set<Link>, param: nat)
    requires Finished(nodes.Relate(g.made, config), visited, after, seen, param)
    ensures forall m :: nodes.IsLink(g.made, m) && m.param == param ==> nodes.Name(m) in after
  {
    var rel := nodes.Relate(g.made, config);
    forall m | nodes.IsLink(g.made, m) && m.param == param
      ensures nodes.Name(m) in after
    {
      assert rel.isLink(m) && rel.name(m) == nodes.Name(m);
    }
  }

  // The functions that are searched are remembered in `visited`; a function
  // is searched for the first of its parameters only.
  method IsTainted(g: Graph, nodes: Nodes, config: Config, param: nat, visited: set<string>)
    returns (answer: Answer, after: set<string>, ghost seen: set<Link>)
    requires Valid(g, nodes) && nodes.IsParameter(param)
    ensures visited <= after && Explained(nodes.Relate(g.made, config), nodes, visited, param, answer)
    ensures answer.Aborted? ==> (forall f :: !nodes.InFunction(g.made, param, f)) || Gives(nodes.Relate(g.made, config), nodes, g.made, visited, param)
    ensures answer == Clean && nodes.OneFunction(g.made) ==> Finished(nodes.Relate(g.made, config), visited, after, seen, param)
    decreases FunctionNames(nodes) - visited, 3
  {
    after, seen := visited, {};
    var f := FunctionOf(g, nodes, param);
    if f.None? {
      return Aborted, after, seen;
    }
    var l := Link(param, f.value);
    if nodes.Name(l) in visited {
      return Clean, after, seen;
    }
    after := after + {nodes.Name(l)};
    if nodes.IsSource(config, l) {
      nodes.Relate(g.made, config).SourceReaches(visited, l);
      return Tainted(nodes.info[param].name, nodes.Name(l)), after, seen;
    }
    var ok, args := Arguments(g, nodes, l);
    if !ok {
      GivesHere(nodes.Relate(g.made, config), nodes, g.made, visited, l);
      return Aborted, after, seen;
    }
    answer, after, seen := SearchArguments(g, nodes, config, l, args, visited);
    if answer == Clean && nodes.OneFunction(g.made) {
      ghost var rel := nodes.Relate(g.made, config);
      rel.OneMoreSearched(visited, after, seen, l);
      seen := seen + {l};
    }
  }

  // All that the arguments depend on has a function that is known.
  ghost predicate ArgumentsKnown(nodes: Nodes, edges: seq<Edge>, args: set<nat>, after: set<string>) {
    forall arg, m :: arg in args && nodes.IsLink(edges, m) && nodes.DependsOn(edges, arg, m.param) ==> nodes.Name(m) in after
  }

  lemma NothingFound(rel: Relations, nodes: Nodes, visited: set<string>, param: nat)
    ensures Explained(rel, nodes, visited, param, Clean) && Explained(rel, nodes, visited, param, Aborted)
  {
  }

  lemma AllPassOn(nodes: Nodes, edges: seq<Edge>, l: Link, arg: nat, params: set<nat>)
    requires nodes.IsParameter(l.param) && nodes.IsArgument(edges, l, arg) && forall p :: p in params ==> nodes.DependsOn(edges, arg, p)
    ensures forall p :: p in params ==> nodes.IsParameter(p) && nodes.Passes(edges, l, p)
  {
  }

  lemma FoundNothing(rel: Relations, visited: set<string>, after: set<string>, seen: set<Link>, param: nat)
    requires Finished(rel, visited, after, seen, param)
    ensures rel.Searched(visited, after, seen)
  {
  }

  lemma NoneKnown(nodes: Nodes, edges: seq<Edge>, after: set<string>)
    ensures ArgumentsKnown(nodes, edges, {}, after)
  {
  }

  lemma OneMoreKnown(nodes: Nodes, edges: seq<Edge>, done: set<nat>, arg: nat, known: set<string>, after: set<string>)
    requires known <= after && ArgumentsKnown(nodes, edges, done, known) && ArgumentsKnown(nodes, edges, {arg}, after)
    ensures ArgumentsKnown(nodes, edges, done + {arg}, after)
  {
    hide Nodes.DependsOn, Nodes.InFunction;
  }

  lemma ParametersKnown(nodes: Nodes, edges: seq<Edge>, arg: nat, after: set<string>, params: set<nat>)
    requires forall p :: nodes.DependsOn(edges, arg, p) ==> p in params
    requires forall m :: nodes.IsLink(edges, m) && m.param in params ==> nodes.Name(m) in after
    ensures ArgumentsKnown(nodes, edges, {arg}, after)
  {
    hide Nodes.DependsOn, Nodes.InFunction;
  }

  method SearchArguments(g: Graph, nodes: Nodes, config: Config, l: Link, arguments: set<nat>, visited: set<string>)
    returns (answer: Answer, after: set<string>, ghost seen: set<Link>)
    requires Valid(g, nodes) && nodes.IsLink(g.made, l) && nodes.Name(l) !in visited
    requires forall a :: a in arguments <==> nodes.IsArgument(g.made, l, a)
    ensures visited + {nodes.Name(l)} <= after && Explained(nodes.Relate(g.made, config), nodes, visited, l.param, answer)
    ensures answer.Aborted? ==> Gives(nodes.Relate(g.made, config), nodes, g.made, visited, l.param)
    ensures answer == Clean && nodes.OneFunction(g.made) ==>
              nodes.Relate(g.made, config).Searched(visited + {nodes.Name(l)}, after, seen) && ArgumentsKnown(nodes, g.made, arguments, after)
    decreases FunctionNames(nodes) - visited, 2
  {
    hide Explained, Relations.Searched, Nodes.OneFunction, Nodes.InFunction, Nodes.IsSource, ArgumentsKnown, Nodes.DependsOn;
    ghost var rel, done := nodes.Relate(g.made, config), {};
    answer, after, seen := Clean, visited + {nodes.Name(l)}, {};
    rel.NothingSearched(after);
    NothingFound(rel, nodes, visited, l.param);
    NoneKnown(nodes, g.made, after);
    var args := arguments;
    while args != {}
      invariant done + args == arguments && visited + {nodes.Name(l)} <= after && answer == Clean
      invariant nodes.OneFunction(g.made) ==> rel.Searched(visited + {nodes.Name(l)}, after, seen) && ArgumentsKnown(nodes, g.made, done, after)
      decreases args
    {
      var arg :| arg in args;
      args := args - {arg};
      ghost var known, more := after, {};
      answer, after, more := SearchArgument(g, nodes, config, l, arg, visited, after);
      if answer != Clean {
        return;
      }
      if nodes.OneFunction(g.made) {
        rel.SearchedBoth(visited + {nodes.Name(l)}, known, after, seen, more);
        OneMoreKnown(nodes, g.made, done, arg, known, after);
        seen := seen + more;
      }
      done := done + {arg};
    }
    assert done == arguments;
  }

  method SearchArgument(g: Graph, nodes: Nodes, config: Config, l: Link, arg: nat, ghost visited: set<string>, before: set<string>)
    returns (answer: Answer, after: set<string>, ghost seen: set<Link>)
    requires Valid(g, nodes) && nodes.IsLink(g.made, l) && nodes.Name(l) !in visited && visited + {nodes.Name(l)} <= before
    requires nodes.IsArgument(g.made, l, arg)
    ensures before <= after && Explained(nodes.Relate(g.made, config), nodes, visited, l.param, answer)
    ensures answer.Aborted? ==> Gives(nodes.Relate(g.made, config), nodes, g.made, visited, l.param)
    ensures answer == Clean && nodes.OneFunction(g.made) ==>
              nodes.Relate(g.made, config).Searched(before, after, seen) && ArgumentsKnown(nodes, g.made, {arg}, after)
    decreases FunctionNames(nodes) - visited, 1
  {
    hide Explained, Relations.Searched, Nodes.OneFunction, Nodes.InFunction, Nodes.IsSource, ArgumentsKnown, Nodes.DependsOn;
    after, seen := before, {};
    NothingFound(nodes.Relate(g.made, config), nodes, visited, l.param);
    ArgumentIsNode(g, nodes, l, arg);
    var ok, params := DependentParameters(g, nodes, arg);
    if !ok {
      assert nodes.Stuck(g.made, l);
      GivesHere(nodes.Relate(g.made, config), nodes, g.made, visited, l);
      return Aborted, after, seen;
    }
    AllPassOn(nodes, g.made, l, arg, params);
    answer, after, seen := SearchParameters(g, nodes, config, l, params, visited, after);
    if answer == Clean && nodes.OneFunction(g.made) {
      ParametersKnown(nodes, g.made, arg, after, params);
    }
  }

  method SearchParameters(g: Graph, nodes: Nodes, config: Config, l: Link, parameters: set<nat>, ghost visited: set<string>, before: set<string>)
    returns (answer: Answer, after: set<string>, ghost seen: set<Link>)
    requires Valid(g, nodes) && nodes.IsLink(g.made, l) && nodes.Name(l) !in visited && visited + {nodes.Name(l)} <= before
    requires forall p :: p in parameters ==> nodes.IsParameter(p) && nodes.Passes(g.made, l, p)
    ensures before <= after && Explained(nodes.Relate(g.made, config), nodes, visited, l.param, answer)
    ensures answer.Aborted? ==> Gives(nodes.Relate(g.made, config), nodes, g.made, visited, l.param)
    ensures answer == Clean && nodes.OneFunction(g.made) ==>
              && nodes.Relate(g.made, config).Searched(before, after, seen)
              && forall m :: nodes.IsLink(g.made, m) && m.param in parameters ==> nodes.Name(m) in after
    decreases FunctionNames(nodes) - visited, 0
  {
    hide Explained, Finished, Relations.Searched, Nodes.OneFunction, Nodes.IsSource, Nodes.DependsOn, Nodes.IsArgument;
    ghost var rel := nodes.Relate(g.made, config);
    answer, after, seen := Clean, before, {};
    rel.NothingSearched(before);
    NothingFound(rel, nodes, visited, l.param);
    var params := parameters;
    while params != {}
      invariant before <= after && answer == Clean && params <= parameters
      invariant nodes.OneFunction(g.made) ==>
                  rel.Searched(before, after, seen) && forall m :: nodes.IsLink(g.made, m) && m.param in parameters - params ==> nodes.Name(m) in after
      decreases params
    {
      var p :| p in params;
      params := params - {p};
      ghost var now, more := after, {};
      Fewer(nodes, l, visited, after);
      answer, after, more := IsTainted(g, nodes, config, p, after);
      PassedOn(rel, nodes, visited, now, l, p, answer);
      if answer != Clean {
        if answer.Aborted? {
          LiesInFunction(g.made, nodes, l, p);
          GivesBehind(rel, nodes, g.made, visited, now, l, p);
        }
        return;
      }
      if nodes.OneFunction(g.made) {
        FunctionsKnown(g, nodes, config, now, after, more, p);
        FoundNothing(rel, now, after, more, p);
        rel.SearchedBoth(before, now, after, seen, more);
        seen := seen + more;
      }
    }
  }

  lemma Fewer(nodes: Nodes, l: Link, visited: set<string>, more: set<string>)
    requires nodes.IsFunction()(l.func) && nodes.Name(l) !in visited && visited + {nodes.Name(l)} <= more
    ensures FunctionNames(nodes) - more < FunctionNames(nodes) - visited
  {
    assert nodes.Name(l) in FunctionNames(nodes) - visited;
  }

  lemma ArgumentIsNode(g: Graph, nodes: Nodes, l: Link, arg: nat)
    requires Valid(g, nodes) && nodes.IsParameter(l.param) && nodes.IsArgument(g.made, l, arg)
    ensures arg < g.count
  {
    var call :| nodes.Calls(g.made, l, call, arg);
    NextIsStep(g.made, IsAst, false, call, arg);
  }
}

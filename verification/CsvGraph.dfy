// Writing a graph as text and reading it back.
module CsvGraph {
  import opened Wrappers
  import opened CsvText
  import opened CsvReader
  import opened CsvEncodings
  import opened CsvFormat
  import opened Graphs
  import Query

  // Rows of fields that a file can hold.
  ghost predicate Table(rows: seq<seq<string>>) {
    forall i :: 0 <= i < |rows| ==> |rows[i]| >= 2 && forall j :: 0 <= j < |rows[i]| ==> Plain(rows[i][j])
  }

  function FileLines(rows: seq<seq<string>>): (r: seq<string>)
    ensures |r| == |rows|
  {
    if rows == [] then [] else [Joined(rows[0], ',')] + FileLines(rows[1..])
  }

  // The objects made of all rows, of which the first is number `next`; None
  // if one cannot be parsed.
  function ParseAll<T>(rows: seq<seq<string>>, parse: (nat, seq<string>) -> Option<T>, next: nat): Option<seq<T>>
    decreases |rows|
  {
    if rows == [] then Some([])
    else
      match parse(next, rows[0])
      case None => None
      case Some(x) => After([x], ParseAll(rows[1..], parse, next + 1))
  }

  function After<T>(items: seq<T>, rest: Option<seq<T>>): Option<seq<T>> {
    match rest
    case None => None
    case Some(xs) => Some(items + xs)
  }

  lemma NothingBefore<T>(rest: Option<seq<T>>)
    ensures After([], rest) == rest
  {
    if rest.Some? {
      assert [] + rest.value == rest.value;
    }
  }

  lemma OneParsed<T>(rows: seq<seq<string>>, parse: (nat, seq<string>) -> Option<T>, items: seq<T>, i: nat)
    requires i < |rows|
    ensures After(items, ParseAll(rows[i..], parse, i)) == match parse(i, rows[i])
                                                           case None => None
                                                           case Some(x) => After(items + [x], ParseAll(rows[i + 1..], parse, i + 1))
  {
    assert rows[i..][0] == rows[i] && rows[i..][1..] == rows[i + 1..];
    if parse(i, rows[i]).Some? && ParseAll(rows[i + 1..], parse, i + 1).Some? {
      var x, xs := parse(i, rows[i]).value, ParseAll(rows[i + 1..], parse, i + 1).value;
      assert items + ([x] + xs) == items + [x] + xs;
    }
  }

  ghost predicate Parses<T>(rows: seq<seq<string>>, parse: (nat, seq<string>) -> Option<T>, next: nat, good: seq<bool>, want: seq<T>) {
    |rows| == |good| == |want| && forall i :: 0 <= i < |rows| ==> parse(next + i, rows[i]) == if good[i] then Some(want[i]) else None
  }

  ghost predicate AllGood(good: seq<bool>) {
    forall i :: 0 <= i < |good| ==> good[i]
  }

  lemma ParsesTail<T>(rows: seq<seq<string>>, parse: (nat, seq<string>) -> Option<T>, next: nat, good: seq<bool>, want: seq<T>)
    requires Parses(rows, parse, next, good, want) && rows != []
    ensures Parses(rows[1..], parse, next + 1, good[1..], want[1..])
    ensures parse(next, rows[0]) == (if good[0] then Some(want[0]) else None) && (AllGood(good) <==> good[0] && AllGood(good[1..]))
  {
    assert parse(next + 0, rows[0]) == parse(next, rows[0]);
    assert good == [good[0]] + good[1..];
    forall i | 0 <= i < |rows| - 1
      ensures parse(next + 1 + i, rows[1..][i]) == if good[1..][i] then Some(want[1..][i]) else None
    {
      assert parse(next + (i + 1), rows[i + 1]) == if good[i + 1] then Some(want[i + 1]) else None;
    }
  }

  lemma {:induction false} ParseEach<T>(rows: seq<seq<string>>, parse: (nat, seq<string>) -> Option<T>, next: nat, good: seq<bool>, want: seq<T>)
    requires Parses(rows, parse, next, good, want)
    ensures ParseAll(rows, parse, next) == if AllGood(good) then Some(want) else None
    decreases |rows|
  {
    if rows != [] {
      ParsesTail(rows, parse, next, good, want);
      ParseEach(rows[1..], parse, next + 1, good[1..], want[1..]);
      assert want == [want[0]] + want[1..];
    }
  }

  lemma {:induction false} JoinedIsLine(fields: seq<string>)
    requires fields != [] && forall j :: 0 <= j < |fields| ==> Plain(fields[j])
    ensures Without(Joined(fields, ','), '\n') && (|fields| >= 2 ==> Joined(fields, ',') != "")
  {
    if |fields| > 1 {
      JoinedIsLine(fields[1..]);
    }
  }

  lemma {:induction false} LinesAreRows(rows: seq<seq<string>>)
    requires Table(rows)
    ensures forall i :: 0 <= i < |rows| ==> LineIsRow(FileLines(rows)[i], rows[i])
  {
    if rows != [] {
      JoinedIsLine(rows[0]);
      FieldsRoundTrip("", rows[0], ',');
      assert "" + Joined(rows[0], ',') == Joined(rows[0], ',');
      LinesAreRows(rows[1..]);
    }
  }

  ghost predicate LineIsRow(line: string, row: seq<string>) {
    Without(line, '\n') && line != "" && Parts(line, ',', 0) == row
  }

  lemma {:induction false} AllNonEmpty(lines: seq<string>)
    requires forall i :: 0 <= i < |lines| ==> lines[i] != ""
    ensures NonEmpty(lines) == lines
  {
    if lines != [] {
      AllNonEmpty(lines[1..]);
    }
  }

  // The loops of readGraph: read all rows, parse each.
  method ReadTable<T>(text: string, parse: (nat, seq<string>) -> Option<T>, ghost rows: seq<seq<string>>) returns (r: Option<seq<T>>)
    requires Table(rows) && text == Text(FileLines(rows))
    ensures r == if EndsWell(text) then ParseAll(rows, parse, 0) else None
  {
    var reader := new Reader(text);
    var ok, lines := reader.ReadRows();
    if !ok {
      return None;
    }
    LinesAreRows(rows);
    AllNonEmpty(FileLines(rows));
    LinesRoundTrip("", FileLines(rows));
    assert "" + text == text && lines == FileLines(rows);
    r := ParseLines(lines, parse, rows);
  }

  method ParseLines<T>(lines: seq<string>, parse: (nat, seq<string>) -> Option<T>, ghost rows: seq<seq<string>>) returns (r: Option<seq<T>>)
    requires |lines| == |rows| && forall i :: 0 <= i < |rows| ==> LineIsRow(lines[i], rows[i])
    ensures r == ParseAll(rows, parse, 0)
  {
    var items: seq<T> := [];
    assert rows[0..] == rows;
    NothingBefore(ParseAll(rows, parse, 0));
    for i := 0 to |lines|
      invariant ParseAll(rows, parse, 0) == After(items, ParseAll(rows[i..], parse, i))
    {
      var row := Split(lines[i], ',');
      OneParsed(rows, parse, items, i);
      var item := parse(i, row);
      if item.None? {
        return None;
      }
      items := items + [item.value];
    }
    assert rows[|lines|..] == [] && items + [] == items;
    return Some(items);
  }

  // ----- nodes -----

  // std::sort by CompareNode
  function InsertNode(n: Node, sorted: seq<Node>): seq<Node> {
    if sorted == [] || n.id < sorted[0].id then [n] + sorted else [sorted[0]] + InsertNode(n, sorted[1..])
  }

  function ByNumber(nodes: seq<Node>): seq<Node> {
    if nodes == [] then [] else InsertNode(nodes[0], ByNumber(nodes[1..]))
  }

  ghost predicate Rising(nodes: seq<Node>) {
    forall i, j :: 0 <= i < j < |nodes| ==> nodes[i].id <= nodes[j].id
  }

  lemma {:induction false} InsertNodeKeeps(n: Node, sorted: seq<Node>)
    ensures multiset(InsertNode(n, sorted)) == multiset(sorted) + multiset{n}
  {
    if !(sorted == [] || n.id < sorted[0].id) {
      InsertNodeKeeps(n, sorted[1..]);
      assert sorted == [sorted[0]] + sorted[1..];
    }
  }

  lemma {:induction false} InsertNodeRises(n: Node, sorted: seq<Node>)
    requires Rising(sorted)
    ensures Rising(InsertNode(n, sorted))
  {
    if !(sorted == [] || n.id < sorted[0].id) {
      var rest := InsertNode(n, sorted[1..]);
      InsertNodeRises(n, sorted[1..]);
      InsertNodeKeeps(n, sorted[1..]);
      forall i | 0 <= i < |rest|
        ensures sorted[0].id <= rest[i].id
      {
        assert rest[i] in multiset(rest);
      }
    }
  }

  // The nodes are sorted, and none is lost.
  lemma {:induction false} ByNumberSorts(nodes: seq<Node>)
    ensures multiset(ByNumber(nodes)) == multiset(nodes) && |ByNumber(nodes)| == |nodes| && Rising(ByNumber(nodes))
  {
    if nodes != [] {
      ByNumberSorts(nodes[1..]);
      InsertNodeKeeps(nodes[0], ByNumber(nodes[1..]));
      InsertNodeRises(nodes[0], ByNumber(nodes[1..]));
      assert nodes == [nodes[0]] + nodes[1..];
      assert |multiset(ByNumber(nodes))| == |multiset(nodes)|;
    }
  }

  lemma SameMembers(nodes: seq<Node>)
    ensures forall n :: n in ByNumber(nodes) <==> n in nodes
  {
    ByNumberSorts(nodes);
    forall n
      ensures n in ByNumber(nodes) <==> n in nodes
    {
      assert n in multiset(ByNumber(nodes)) <==> n in multiset(nodes);
    }
  }

  function NodeRows(e: Encodings, nodes: seq<Node>): (r: seq<seq<string>>)
    ensures |r| == |nodes| && forall i :: 0 <= i < |r| ==> r[i] == Fields(NodeRow(e, nodes[i]))
  {
    if nodes == [] then [] else [Fields(NodeRow(e, nodes[0]))] + NodeRows(e, nodes[1..])
  }

  // nodes.csv
  function NodesText(nodes: seq<Node>): string {
    Text(FileLines(NodeRows(SOURCE, nodes)))
  }

  function AllReadBack(nodes: seq<Node>): seq<Node> {
    seq(|nodes|, i requires 0 <= i < |nodes| => ReadBack(nodes[i]))
  }

  lemma NodeRowsAreTable(e: Encodings, nodes: seq<Node>)
    requires e.Lawful() && forall i :: 0 <= i < |nodes| ==> WfNode(nodes[i])
    ensures Table(NodeRows(e, nodes))
  {
    forall i | 0 <= i < |nodes|
      ensures forall j :: 0 <= j < 18 ==> Plain(NodeRows(e, nodes)[i][j])
    {
      NodeRowIsPlain(e, nodes[i]);
      FieldsArePlain(NodeRow(e, nodes[i]));
    }
  }

  function NodeParser(e: Encodings): (nat, seq<string>) -> Option<Node> {
    (next: nat, row) => ParseNode(e, next, row)
  }

  // The numbers are those that the reader counts, and all numbers are small
  // enough for it.
  predicate Readable(nodes: seq<Node>) {
    forall i :: 0 <= i < |nodes| ==> nodes[i].id == i && Fits(nodes[i])
  }

  lemma NodesParse(e: Encodings, nodes: seq<Node>)
    requires e.Lawful() && forall i :: 0 <= i < |nodes| ==> WfNode(nodes[i])
    ensures ParseAll(NodeRows(e, nodes), NodeParser(e), 0) == if Readable(nodes) then Some(AllReadBack(nodes)) else None
  {
    var good := seq(|nodes|, i requires 0 <= i < |nodes| => nodes[i].id == i && Fits(nodes[i]));
    forall i: nat | i < |nodes|
      ensures ParseNode(e, 0 + i, NodeRows(e, nodes)[i]) == if good[i] then Some(AllReadBack(nodes)[i]) else None
    {
      NodeFieldsRoundTrip(e, i, nodes[i]);
    }
    ParseEach(NodeRows(e, nodes), NodeParser(e), 0, good, AllReadBack(nodes));
    assert forall i :: 0 <= i < |nodes| ==> good[i] == (nodes[i].id == i && Fits(nodes[i]));
  }

  // Reading the nodes that were written: they come back in their order, and
  // reading fails exactly if the ids are not 0, 1, 2 and so on, if a number
  // is too large, or if the text ends badly.
  method ReadNodes(text: string, ghost nodes: seq<Node>) returns (r: Option<seq<Node>>)
    requires text == NodesText(nodes) && forall i :: 0 <= i < |nodes| ==> WfNode(nodes[i])
    ensures r == if EndsWell(text) && Readable(nodes) then Some(AllReadBack(nodes)) else None
  {
    SourceIsLawful();
    NodeRowsAreTable(SOURCE, nodes);
    NodesParse(SOURCE, nodes);
    r := ReadTable(text, NodeParser(SOURCE), NodeRows(SOURCE, nodes));
  }

  // ----- edges -----

  // The numbers of the syntax edges of one node.
  function Orders(edges: seq<Edge>, order: nat): (r: seq<nat>)
    ensures |r| == |edges|
  {
    if edges == [] then [] else [order] + Orders(edges[1..], if edges[0].Ast? then order + 1 else order)
  }

  // A set of edges begins with the syntax edges.
  lemma SyntaxFirst(list: seq<Edge>, i: nat, j: nat)
    requires Sorted(list) && j <= i < |list| && list[i].Ast?
    ensures list[j].Ast?
  {
    if j < i {
      assert Before(list[j], list[i]);
    }
  }

  lemma {:induction false} NumbersRun(list: seq<Edge>, order: nat, k: nat)
    requires k < |list| && forall j :: 0 <= j <= k ==> list[j].Ast?
    ensures Orders(list, order)[k] == order + k
    ensures k < |Query.Targets(list, Query.IsAst, false)| && Query.Targets(list, Query.IsAst, false)[k] == list[k].dst
    decreases k
  {
    if k > 0 {
      NumbersRun(list[1..], order + 1, k - 1);
    }
  }

  lemma {:induction false} NoTarget(list: seq<Edge>)
    requires forall e :: e in list ==> !e.Ast?
    ensures Query.Targets(list, Query.IsAst, false) == []
  {
    if list != [] {
      NoTarget(list[1..]);
    }
  }

  // As many syntax edges come first as there are children.
  lemma {:induction false} SyntaxCount(list: seq<Edge>, k: nat)
    requires Sorted(list) && k < |Query.Targets(list, Query.IsAst, false)|
    ensures k < |list| && list[k].Ast?
  {
    if !list[0].Ast? {
      forall e | e in list
        ensures !e.Ast?
      {
        var i :| 0 <= i < |list| && list[i] == e;
        if e.Ast? {
          SyntaxFirst(list, i, 0);
        }
      }
      NoTarget(list);
    } else if k > 0 {
      SyntaxCount(list[1..], k - 1);
    }
  }

  lemma ChildInOrder(g: Graph, n: nat, k: nat)
    requires g.Valid() && n < g.count && k < |Query.Children(g.made, n)|
    ensures var list := EdgeSet(g.outEdges[n]); k < |list| && list[k] == Ast(n, Query.Children(g.made, n)[k]) && Orders(list, 0)[k] == k
  {
    var list := EdgeSet(g.outEdges[n]);
    EdgeSetIsSorted(g.outEdges[n]);
    assert Query.Children(g.made, n) == Query.Targets(list, Query.IsAst, false);
    SyntaxCount(list, k);
    forall j | 0 <= j <= k
      ensures list[j].Ast?
    {
      SyntaxFirst(list, k, j);
    }
    NumbersRun(list, 0, k);
    assert list[k] in list;
  }

  function EdgeRows(e: Encodings, edges: seq<Edge>, orders: seq<nat>): (r: seq<seq<string>>)
    requires |orders| == |edges|
    ensures |r| == |edges| && forall i :: 0 <= i < |r| ==> r[i] == EdgeFields(e, edges[i], orders[i])
  {
    if edges == [] then [] else [EdgeFields(e, edges[0], orders[0])] + EdgeRows(e, edges[1..], orders[1..])
  }

  // The child that getChild(k) finds is written with the number k.
  lemma ChildHasNumber(e: Encodings, g: Graph, n: nat, k: nat)
    requires g.Valid() && n < g.count && k < |Query.Children(g.made, n)|
    ensures var list := EdgeSet(g.outEdges[n]);
            && k < |list| && list[k] == Ast(n, Query.Children(g.made, n)[k])
            && |EdgeRows(e, list, Orders(list, 0))[k]| == 9 && EdgeRows(e, list, Orders(list, 0))[k][8] == e.index(k)
  {
    hide Orders, EdgeSet, Query.Lists;
    ChildInOrder(g, n, k);
  }

  // edges.csv
  function EdgesText(edges: seq<Edge>, orders: seq<nat>): string
    requires |orders| == |edges|
  {
    Text(FileLines(EdgeRows(SOURCE, edges, orders)))
  }

  function AllEdgesReadBack(edges: seq<Edge>): seq<Edge> {
    seq(|edges|, i requires 0 <= i < |edges| => EdgeReadBack(edges[i]))
  }

  function EdgeParser(e: Encodings, nodes: seq<Node>): (nat, seq<string>) -> Option<Edge> {
    (next: nat, row) => ParseEdge(e, nodes, row)
  }

  lemma EdgeRowsAreTable(e: Encodings, edges: seq<Edge>, orders: seq<nat>)
    requires e.Lawful() && |orders| == |edges| && forall i :: 0 <= i < |edges| ==> WfEdge(edges[i])
    ensures Table(EdgeRows(e, edges, orders))
  {
    var rows := EdgeRows(e, edges, orders);
    forall i | 0 <= i < |edges|
      ensures |rows[i]| >= 2 && forall j :: 0 <= j < |rows[i]| ==> Plain(rows[i][j])
    {
      EdgeFieldsArePlain(e, edges[i], orders[i]);
    }
  }

  // Both ends are nodes that have been read.
  predicate Joins(x: Edge, nodes: seq<Node>) {
    IsNode(nodes, x.src) && IsNode(nodes, x.dst)
  }

  lemma EdgesParse(e: Encodings, nodes: seq<Node>, edges: seq<Edge>, orders: seq<nat>)
    requires e.Lawful() && |orders| == |edges| && |nodes| <= TWO_TO_31 && forall i :: 0 <= i < |edges| ==> WfEdge(edges[i])
    ensures ParseAll(EdgeRows(e, edges, orders), EdgeParser(e, nodes), 0)
            == if forall i :: 0 <= i < |edges| ==> Joins(edges[i], nodes) then Some(AllEdgesReadBack(edges)) else None
  {
    hide EdgeFields, ParseEdge, EdgeReadBack, Encodings.Lawful;
    var good := seq(|edges|, i requires 0 <= i < |edges| => Joins(edges[i], nodes));
    forall i | 0 <= i < |edges|
      ensures ParseEdge(e, nodes, EdgeRows(e, edges, orders)[i]) == if good[i] then Some(AllEdgesReadBack(edges)[i]) else None
    {
      EdgeFieldsRoundTrip(e, nodes, edges[i], orders[i]);
    }
    ParseEach(EdgeRows(e, edges, orders), EdgeParser(e, nodes), 0, good, AllEdgesReadBack(edges));
    assert forall i :: 0 <= i < |edges| ==> good[i] == Joins(edges[i], nodes);
  }

  // Reading the edges that were written, between the nodes that were read.
  method ReadEdges(text: string, nodes: seq<Node>, ghost edges: seq<Edge>, ghost orders: seq<nat>) returns (r: Option<seq<Edge>>)
    requires |orders| == |edges| && text == EdgesText(edges, orders) && |nodes| <= TWO_TO_31
    requires forall i :: 0 <= i < |edges| ==> WfEdge(edges[i])
    ensures r == if EndsWell(text) && forall i :: 0 <= i < |edges| ==> Joins(edges[i], nodes)
                 then Some(AllEdgesReadBack(edges)) else None
  {
    SourceIsLawful();
    EdgeRowsAreTable(SOURCE, edges, orders);
    EdgesParse(SOURCE, nodes, edges, orders);
    r := ReadTable(text, EdgeParser(SOURCE, nodes), EdgeRows(SOURCE, edges, orders));
  }

  // ----- the whole graph -----

  // The edges of the nodes, in the order in which they are written.
  ghost function Walked(g: Graph, nodes: seq<Node>): seq<Edge>
    reads g
    requires forall i :: 0 <= i < |nodes| ==> nodes[i].id in g.outEdges
  {
    if nodes == [] then []
    else
      var last := nodes[|nodes| - 1];
      Walked(g, nodes[..|nodes| - 1]) + EdgeSet(g.outEdges[last.id])
  }

  ghost function WalkedOrders(g: Graph, nodes: seq<Node>): (r: seq<nat>)
    reads g
    requires forall i :: 0 <= i < |nodes| ==> nodes[i].id in g.outEdges
    ensures |r| == |Walked(g, nodes)|
  {
    if nodes == [] then []
    else
      var last := nodes[|nodes| - 1];
      WalkedOrders(g, nodes[..|nodes| - 1]) + Orders(EdgeSet(g.outEdges[last.id]), 0)
  }

  lemma {:induction false} RowsTogether(edges: seq<Edge>, orders: seq<nat>, more: seq<Edge>, moreOrders: seq<nat>)
    requires |edges| == |orders| && |more| == |moreOrders|
    ensures EdgeRows(SOURCE, edges + more, orders + moreOrders) == EdgeRows(SOURCE, edges, orders) + EdgeRows(SOURCE, more, moreOrders)
  {
    var all := EdgeRows(SOURCE, edges + more, orders + moreOrders);
    forall i | 0 <= i < |all|
      ensures all[i] == (EdgeRows(SOURCE, edges, orders) + EdgeRows(SOURCE, more, moreOrders))[i]
    {
    }
  }

  // The rows of one node: syntax edges are numbered.
  method WriteEdges(edges: seq<Edge>) returns (rows: seq<seq<string>>)
    ensures rows == EdgeRows(SOURCE, edges, Orders(edges, 0))
  {
    rows := [];
    var order := 0;
    assert edges[0..] == edges;
    for i := 0 to |edges|
      invariant EdgeRows(SOURCE, edges, Orders(edges, 0)) == rows + EdgeRows(SOURCE, edges[i..], Orders(edges[i..], order))
    {
      assert edges[i..][0] == edges[i] && edges[i..][1..] == edges[i + 1..];
      var row := EdgeFields(SOURCE, edges[i], order);
      var next := if edges[i].Ast? then order + 1 else order;
      OneRow(edges, i, order, next, rows, row);
      rows, order := rows + [row], next;
    }
    assert edges[|edges|..] == [] && rows + [] == rows;
  }

  lemma OneRow(edges: seq<Edge>, i: nat, order: nat, next: nat, rows: seq<seq<string>>, row: seq<string>)
    requires i < |edges| && next == (if edges[i].Ast? then order + 1 else order) && row == EdgeFields(SOURCE, edges[i], order)
    ensures rows + EdgeRows(SOURCE, edges[i..], Orders(edges[i..], order))
            == rows + [row] + EdgeRows(SOURCE, edges[i + 1..], Orders(edges[i + 1..], next))
  {
    assert edges[i..][0] == edges[i] && edges[i..][1..] == edges[i + 1..];
    var rest := EdgeRows(SOURCE, edges[i + 1..], Orders(edges[i + 1..], next));
    assert EdgeRows(SOURCE, edges[i..], Orders(edges[i..], order)) == [row] + rest;
    assert rows + ([row] + rest) == rows + [row] + rest;
  }

  // writeGraph, with all edges printed: the nodes by their numbers, the edges
  // of each in the order of its edge set.
  method WriteGraph(g: Graph, nodes: seq<Node>) returns (nodesText: string, edgesText: string, numNodes: nat, numEdges: nat)
    requires g.Valid() && forall i :: 0 <= i < |nodes| ==> nodes[i].id < g.count
    ensures AllIn(g, ByNumber(nodes))
    ensures nodesText == NodesText(ByNumber(nodes)) && numNodes == |nodes|
    ensures edgesText == EdgesText(Walked(g, ByNumber(nodes)), WalkedOrders(g, ByNumber(nodes))) && numEdges == |Walked(g, ByNumber(nodes))|
  {
    hide ByNumber, EdgeRows, EdgeSet, Orders, FileLines, NodesText;
    SortedIn(g, nodes);
    ByNumberSorts(nodes);
    var sorted := ByNumber(nodes);
    var rows: seq<seq<string>> := [];
    assert sorted[..0] == [];
    for i := 0 to |sorted|
      invariant AllIn(g, sorted[..i]) && rows == EdgeRows(SOURCE, Walked(g, sorted[..i]), WalkedOrders(g, sorted[..i]))
    {
      var more := WriteEdges(EdgeSet(g.outEdges[sorted[i].id]));
      assert sorted[..i + 1][..i] == sorted[..i] && sorted[..i + 1][i] == sorted[i];
      RowsTogether(Walked(g, sorted[..i]), WalkedOrders(g, sorted[..i]),
                   EdgeSet(g.outEdges[sorted[i].id]), Orders(EdgeSet(g.outEdges[sorted[i].id]), 0));
      rows := rows + more;
    }
    assert sorted[..|sorted|] == sorted;
    nodesText, edgesText := NodesText(sorted), Text(FileLines(rows));
    numNodes, numEdges := |sorted|, |rows|;
  }

  ghost predicate AllIn(g: Graph, nodes: seq<Node>)
    reads g
  {
    forall i :: 0 <= i < |nodes| ==> nodes[i].id in g.outEdges
  }

  lemma SortedIn(g: Graph, nodes: seq<Node>)
    requires g.Valid() && forall i :: 0 <= i < |nodes| ==> nodes[i].id < g.count
    ensures AllIn(g, ByNumber(nodes))
  {
    SameMembers(nodes);
    hide ByNumber;
    forall n | n in ByNumber(nodes)
      ensures n.id in g.outEdges
    {
      assert n in nodes;
    }
  }
}

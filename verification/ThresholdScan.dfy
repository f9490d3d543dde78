/** The payload threshold scan: nested loops over rows and over the numeric leaves of each
    payload, which stop as soon as twenty matches are found. */
module ThresholdScan {

  const MAX_MONGO_FIELDS: nat := 32
  const MAX_LIST_ITEMS: nat := 10
  const MAX_THRESHOLD_MATCHES: nat := 20

  datatype Json =
    | Null
    | Text(text: string)
    | Bool(flag: bool)
    | Number(value: real)
    | Object(members: seq<(string, Json)>)
    | Array(items: seq<Json>)

  datatype Leaf = Leaf(path: string, value: real)

  function Digit(i: nat): char
    requires i < 10
  {
    "0123456789"[i]
  }

  function MemberPath(path: string, key: string): string {
    if path != "" then path + "." + key else key
  }

  function ItemPath(path: string, i: nat): string
    requires i < MAX_LIST_ITEMS
  {
    path + "[" + [Digit(i)] + "]"
  }

  // ----- The leaves of a payload, depth first -----

  function Leaves(v: Json, path: string): seq<Leaf>
    decreases v, 1, 0
  {
    match v
    case Number(x) => [Leaf(if path != "" then path else "value", x)]
    case Object(ms) => MemberLeaves(v, path, if |ms| < MAX_MONGO_FIELDS then |ms| else MAX_MONGO_FIELDS)
    case Array(vs) => ItemLeaves(v, path, if |vs| < MAX_LIST_ITEMS then |vs| else MAX_LIST_ITEMS)
    case _ => []
  }

  /** The leaves of the first k members. */
  function MemberLeaves(v: Json, path: string, k: nat): seq<Leaf>
    requires v.Object? && k <= |v.members|
    decreases v, 0, k
  {
    if k == 0 then []
    else MemberLeaves(v, path, k - 1) + Leaves(v.members[k - 1].1, MemberPath(path, v.members[k - 1].0))
  }

  function ItemLeaves(v: Json, path: string, k: nat): seq<Leaf>
    requires v.Array? && k <= |v.items| && k <= MAX_LIST_ITEMS
    decreases v, 0, k
  {
    if k == 0 then []
    else ItemLeaves(v, path, k - 1) + Leaves(v.items[k - 1], ItemPath(path, k - 1))
  }

  lemma AppendedTwice(a: seq<Leaf>, b: seq<Leaf>, c: seq<Leaf>)
    ensures a + b + c == a + (b + c)
  {}

  /** collect_numeric_values appends the leaves to the list it is given. */
  method CollectNumericValues(v: Json, path: string, values: seq<Leaf>) returns (out: seq<Leaf>)
    ensures out == values + Leaves(v, path)
    decreases v
  {
    out := values;
    match v
    case Number(x) => out := out + [Leaf(if path != "" then path else "value", x)];
    case Object(ms) =>
      var n := if |ms| < MAX_MONGO_FIELDS then |ms| else MAX_MONGO_FIELDS;
      for k := 0 to n
        invariant out == values + MemberLeaves(v, path, k)
      {
        AppendedTwice(values, MemberLeaves(v, path, k), Leaves(ms[k].1, MemberPath(path, ms[k].0)));
        out := CollectNumericValues(ms[k].1, MemberPath(path, ms[k].0), out);
      }
    case Array(vs) =>
      var n := if |vs| < MAX_LIST_ITEMS then |vs| else MAX_LIST_ITEMS;
      for k := 0 to n
        invariant out == values + ItemLeaves(v, path, k)
      {
        AppendedTwice(values, ItemLeaves(v, path, k), Leaves(vs[k], ItemPath(path, k)));
        out := CollectNumericValues(vs[k], ItemPath(path, k), out);
      }
    case _ =>
  }

  // ----- What a leaf is -----

  /** How many children of a value are looked at. */
  function Arity(v: Json): nat {
    match v
    case Object(ms) => if |ms| < 32 then |ms| else 32
    case Array(vs) => if |vs| < 10 then |vs| else 10
    case _ => 0
  }

  function ChildAt(v: Json, i: nat): (child: Json)
    requires i < Arity(v)
    ensures child < v
  {
    match v
    case Object(ms) => ms[i].1
    case Array(vs) => vs[i]
  }

  function ChildPath(v: Json, path: string, i: nat): string
    requires i < Arity(v)
  {
    match v
    case Object(ms) => if path == "" then ms[i].0 else path + "." + ms[i].0
    case Array(_) => path + ["[0]", "[1]", "[2]", "[3]", "[4]", "[5]", "[6]", "[7]", "[8]", "[9]"][i]
  }

  /** The walk, from child to child by position, leads to the number x. */
  ghost predicate LeadsTo(v: Json, walk: seq<nat>, x: real)
    decreases |walk|
  {
    if walk == [] then v == Number(x)
    else walk[0] < Arity(v) && LeadsTo(ChildAt(v, walk[0]), walk[1..], x)
  }

  /** The path that the walk spells, continuing `path`. */
  ghost function Spelled(v: Json, path: string, walk: seq<nat>): string
    decreases |walk|
  {
    if walk == [] || walk[0] >= Arity(v) then path
    else Spelled(ChildAt(v, walk[0]), ChildPath(v, path, walk[0]), walk[1..])
  }

  /** The walk comes first in depth-first order. */
  ghost predicate Before(a: seq<nat>, b: seq<nat>)
    decreases |a|
  {
    a != [] && b != [] && (a[0] < b[0] || (a[0] == b[0] && Before(a[1..], b[1..])))
  }

  /** The leaf is the number the walk leads to, under the path it spells. */
  ghost predicate FoundBy(v: Json, path: string, walk: seq<nat>, leaf: Leaf) {
    && LeadsTo(v, walk, leaf.value)
    && leaf.path == if Spelled(v, path, walk) != "" then Spelled(v, path, walk) else "value"
  }

  ghost predicate AllFound(v: Json, path: string, walks: seq<seq<nat>>, leaves: seq<Leaf>) {
    |walks| == |leaves| && forall i :: 0 <= i < |walks| ==> FoundBy(v, path, walks[i], leaves[i])
  }

  ghost predicate DepthFirst(walks: seq<seq<nat>>) {
    forall i, j :: 0 <= i < j < |walks| ==> Before(walks[i], walks[j])
  }

  /** All walks to numbers are listed that start with one of the first k children. */
  ghost predicate Complete(v: Json, k: nat, walks: seq<seq<nat>>) {
    forall walk, x :: LeadsTo(v, walk, x) && walk != [] && walk[0] < k ==> walk in walks
  }

  ghost predicate StartsBelow(k: nat, walks: seq<seq<nat>>) {
    forall i :: 0 <= i < |walks| ==> walks[i] != [] && walks[i][0] < k
  }

  function Under(k: nat, walks: seq<seq<nat>>): (longer: seq<seq<nat>>)
    ensures |longer| == |walks| && forall i :: 0 <= i < |walks| ==> longer[i] == [k] + walks[i]
  {
    seq(|walks|, i requires 0 <= i < |walks| => [k] + walks[i])
  }

  lemma ChildFound(v: Json, path: string, k: nat, walks: seq<seq<nat>>, leaves: seq<Leaf>)
    requires k < Arity(v) && AllFound(ChildAt(v, k), ChildPath(v, path, k), walks, leaves)
    ensures AllFound(v, path, Under(k, walks), leaves)
  {
    forall i | 0 <= i < |walks| ensures FoundBy(v, path, Under(k, walks)[i], leaves[i]) {
      assert FoundBy(ChildAt(v, k), ChildPath(v, path, k), walks[i], leaves[i]);
      assert ([k] + walks[i])[1..] == walks[i];
    }
  }

  lemma AddedInOrder(k: nat, front: seq<seq<nat>>, walks: seq<seq<nat>>)
    requires StartsBelow(k, front) && DepthFirst(front) && DepthFirst(walks)
    ensures DepthFirst(front + Under(k, walks)) && StartsBelow(k + 1, front + Under(k, walks))
  {
    var all := front + Under(k, walks);
    forall i, j | 0 <= i < j < |all| ensures Before(all[i], all[j]) {
      if i < |front| {
        assert all[i] == front[i];
      } else {
        assert Before(walks[i - |front|], walks[j - |front|]);
        UnderInOrder(k, walks[i - |front|], walks[j - |front|]);
      }
    }
  }

  lemma UnderInOrder(k: nat, a: seq<nat>, b: seq<nat>)
    requires Before(a, b)
    ensures Before([k] + a, [k] + b)
  {
    assert ([k] + a)[1..] == a && ([k] + b)[1..] == b;
  }

  lemma AddedIsComplete(v: Json, k: nat, front: seq<seq<nat>>, walks: seq<seq<nat>>)
    requires k < Arity(v) && Complete(v, k, front)
    requires forall walk, x :: LeadsTo(ChildAt(v, k), walk, x) ==> walk in walks
    ensures Complete(v, k + 1, front + Under(k, walks))
  {
    forall walk, x | LeadsTo(v, walk, x) && walk != [] && walk[0] < k + 1 ensures walk in front + Under(k, walks) {
      if walk[0] == k {
        assert LeadsTo(ChildAt(v, k), walk[1..], x);
        var i :| 0 <= i < |walks| && walks[i] == walk[1..];
        assert Under(k, walks)[i] == walk;
      }
    }
  }

  /** The leaves of the first k children, of whichever kind. */
  ghost function ChildLeaves(v: Json, path: string, k: nat): seq<Leaf>
    requires k <= Arity(v)
  {
    if v.Object? then MemberLeaves(v, path, k) else if v.Array? then ItemLeaves(v, path, k) else []
  }

  lemma ChildLeavesOneMore(v: Json, path: string, k: nat)
    requires k < Arity(v)
    ensures ChildLeaves(v, path, k + 1) == ChildLeaves(v, path, k) + Leaves(ChildAt(v, k), ChildPath(v, path, k))
  {
    if v.Array? { ItemPathIsChildPath(path, k); }
  }

  lemma ItemPathIsChildPath(path: string, i: nat)
    requires i < 10
    ensures ItemPath(path, i) == path + ["[0]", "[1]", "[2]", "[3]", "[4]", "[5]", "[6]", "[7]", "[8]", "[9]"][i]
  {
    var item := "[" + [Digit(i)] + "]";
    assert path + "[" + [Digit(i)] + "]" == path + item;
    assert |item| == 3 && item[0] == '[' && item[1] == Digit(i) && item[2] == ']';
    assert item == ["[0]", "[1]", "[2]", "[3]", "[4]", "[5]", "[6]", "[7]", "[8]", "[9]"][i];
  }

  lemma FoundAppend(
    v: Json, path: string, a: seq<seq<nat>>, x: seq<Leaf>, b: seq<seq<nat>>, y: seq<Leaf>)
    requires AllFound(v, path, a, x) && AllFound(v, path, b, y)
    ensures AllFound(v, path, a + b, x + y)
  {}

  /** `walks` finds exactly the leaves of the first k children. */
  ghost predicate WalksFirst(v: Json, path: string, k: nat, walks: seq<seq<nat>>)
    requires k <= Arity(v)
  {
    && AllFound(v, path, walks, ChildLeaves(v, path, k)) && DepthFirst(walks)
    && StartsBelow(k, walks) && Complete(v, k, walks)
  }

  /** `walks` finds exactly the leaves of the whole value. */
  ghost predicate WalksAll(v: Json, path: string, walks: seq<seq<nat>>) {
    && AllFound(v, path, walks, Leaves(v, path)) && DepthFirst(walks)
    && forall walk, x :: LeadsTo(v, walk, x) ==> walk in walks
  }

  lemma NoChildren(v: Json, path: string)
    ensures WalksFirst(v, path, 0, [])
  {}

  lemma {:induction false} ChildrenAreWalked(v: Json, path: string, k: nat) returns (walks: seq<seq<nat>>)
    requires k <= Arity(v)
    ensures WalksFirst(v, path, k, walks)
    decreases v, 0, k
  {
    walks := [];
    if k == 0 {
      NoChildren(v, path);
    } else {
      var front := ChildrenAreWalked(v, path, k - 1);
      var last := LeavesAreWalked(ChildAt(v, k - 1), ChildPath(v, path, k - 1));
      walks := front + Under(k - 1, last);
      AddChild(v, path, k - 1, front, last);
    }
  }

  lemma AddChild(v: Json, path: string, k: nat, front: seq<seq<nat>>, last: seq<seq<nat>>)
    requires k < Arity(v) && WalksFirst(v, path, k, front) && WalksAll(ChildAt(v, k), ChildPath(v, path, k), last)
    ensures WalksFirst(v, path, k + 1, front + Under(k, last))
  {
    var leaves := Leaves(ChildAt(v, k), ChildPath(v, path, k));
    ChildLeavesOneMore(v, path, k);
    ChildFound(v, path, k, last, leaves);
    FoundAppend(v, path, front, ChildLeaves(v, path, k), Under(k, last), leaves);
    AddedInOrder(k, front, last);
    AddedIsComplete(v, k, front, last);
  }

  /** The leaves of a payload are exactly the numbers that a walk through its first children
      leads to, each under the path the walk spells, in depth-first order. */
  lemma {:induction false} LeavesAreWalked(v: Json, path: string) returns (walks: seq<seq<nat>>)
    ensures WalksAll(v, path, walks)
    decreases v, 1, 0
  {
    if v.Number? {
      walks := [[]];
      assert walks[0] == [] && FoundBy(v, path, [], Leaves(v, path)[0]);
    } else {
      walks := ChildrenAreWalked(v, path, Arity(v));
      WalkedToTheEnd(v, path, walks);
    }
  }

  lemma WalkedToTheEnd(v: Json, path: string, walks: seq<seq<nat>>)
    requires !v.Number? && WalksFirst(v, path, Arity(v), walks)
    ensures WalksAll(v, path, walks)
  {}

  // ----- The scan -----

  /** A stored row: its name and the payload that parsing its content gave. */
  datatype Row = Row(name: string, payload: Json)

  datatype Match = Match(name: string, leaf: Leaf)

  datatype Query = Query(configured: string -> bool, threshold: real)

  predicate Parseable(row: Row) {
    row.payload.Bool? || row.payload.Number? || row.payload.Object? || row.payload.Array?
  }

  predicate Hit(q: Query, leaf: Leaf) { q.configured(leaf.path) && leaf.value > q.threshold }

  function LeafMatches(q: Query, name: string, leaves: seq<Leaf>): seq<Match> {
    if leaves == [] then []
    else
      var leaf := leaves[|leaves| - 1];
      LeafMatches(q, name, leaves[..|leaves| - 1]) + if Hit(q, leaf) then [Match(name, leaf)] else []
  }

  /** All matches of all rows, with no early exit. */
  function AllMatches(q: Query, rows: seq<Row>): seq<Match> {
    if rows == [] then []
    else
      var row := rows[|rows| - 1];
      AllMatches(q, rows[..|rows| - 1]) + LeafMatches(q, row.name, Leaves(row.payload, ""))
  }

  function ParseableCount(rows: seq<Row>): nat {
    if rows == [] then 0 else ParseableCount(rows[..|rows| - 1]) + if Parseable(rows[|rows| - 1]) then 1 else 0
  }

  function Truncated(ms: seq<Match>): (first: seq<Match>)
    ensures first <= ms && |first| == if |ms| <= 20 then |ms| else 20
  {
    if |ms| <= MAX_THRESHOLD_MATCHES then ms else ms[..MAX_THRESHOLD_MATCHES]
  }

  /** `visited` is where the scan stops: everywhere before, fewer than twenty were found. */
  ghost predicate StopsAfter(q: Query, rows: seq<Row>, visited: nat) {
    && visited <= |rows|
    && (visited < |rows| ==> |AllMatches(q, rows[..visited])| >= MAX_THRESHOLD_MATCHES)
    && GoesOnUntil(q, rows, visited)
  }

  ghost predicate GoesOnUntil(q: Query, rows: seq<Row>, n: nat)
    requires n <= |rows|
  {
    forall k :: 0 <= k < n ==> |AllMatches(q, rows[..k])| < MAX_THRESHOLD_MATCHES
  }

  lemma {:induction false} PrefixMatches(q: Query, rows: seq<Row>, k: nat)
    requires k <= |rows|
    ensures AllMatches(q, rows[..k]) <= AllMatches(q, rows)
  {
    if k < |rows| {
      PrefixMatches(q, rows[..|rows| - 1], k);
      assert rows[..|rows| - 1][..k] == rows[..k];
    } else {
      assert rows[..k] == rows;
    }
  }

  lemma {:induction false} UnparseableHasNoLeaves(q: Query, row: Row)
    requires !Parseable(row)
    ensures LeafMatches(q, row.name, Leaves(row.payload, "")) == []
  {
    assert Leaves(row.payload, "") == [];
  }

  lemma {:induction false} LeafPrefix(q: Query, name: string, leaves: seq<Leaf>, k: nat)
    requires k <= |leaves|
    ensures LeafMatches(q, name, leaves[..k]) <= LeafMatches(q, name, leaves)
  {
    if k < |leaves| {
      LeafPrefix(q, name, leaves[..|leaves| - 1], k);
      assert leaves[..|leaves| - 1][..k] == leaves[..k];
    } else {
      assert leaves[..k] == leaves;
    }
  }

  lemma FirstTwenty(found: seq<Match>, all: seq<Match>)
    requires found <= all && |found| == MAX_THRESHOLD_MATCHES
    ensures found == Truncated(all)
  {}

  lemma OneMoreLeaf(q: Query, name: string, leaves: seq<Leaf>, before: seq<Match>, j: nat)
    requires j < |leaves|
    ensures var found := before + LeafMatches(q, name, leaves[..j]);
            before + LeafMatches(q, name, leaves[..j + 1]) ==
            if Hit(q, leaves[j]) then found + [Match(name, leaves[j])] else found
  {
    assert leaves[..j + 1][..j] == leaves[..j] && leaves[..j + 1][j] == leaves[j];
    var found := LeafMatches(q, name, leaves[..j]);
    assert LeafMatches(q, name, leaves[..j + 1]) ==
           if Hit(q, leaves[j]) then found + [Match(name, leaves[j])] else found;
    assert before + (found + [Match(name, leaves[j])]) == before + found + [Match(name, leaves[j])];
  }

  /** The inner loop, which breaks at the twentieth match. */
  method ScanLeaves(q: Query, name: string, leaves: seq<Leaf>, before: seq<Match>) returns (matches: seq<Match>)
    requires |before| < MAX_THRESHOLD_MATCHES
    ensures matches == Truncated(before + LeafMatches(q, name, leaves))
  {
    matches := before;
    for j := 0 to |leaves|
      invariant matches == before + LeafMatches(q, name, leaves[..j]) && |matches| < MAX_THRESHOLD_MATCHES
    {
      OneMoreLeaf(q, name, leaves, before, j);
      if Hit(q, leaves[j]) {
        matches := matches + [Match(name, leaves[j])];
        if |matches| >= MAX_THRESHOLD_MATCHES {
          LeafPrefix(q, name, leaves, j + 1);
          FirstTwenty(matches, before + LeafMatches(q, name, leaves));
          break;
        }
      }
    }
    assert leaves[..|leaves|] == leaves;
  }

  lemma OneMoreRow(q: Query, rows: seq<Row>, i: nat)
    requires i < |rows|
    ensures AllMatches(q, rows[..i + 1]) ==
            AllMatches(q, rows[..i]) + LeafMatches(q, rows[i].name, Leaves(rows[i].payload, ""))
    ensures ParseableCount(rows[..i + 1]) == ParseableCount(rows[..i]) + if Parseable(rows[i]) then 1 else 0
  {
    assert rows[..i + 1][..i] == rows[..i];
  }

  lemma EnoughFound(q: Query, rows: seq<Row>, n: nat)
    requires n <= |rows| && |AllMatches(q, rows[..n])| >= MAX_THRESHOLD_MATCHES && GoesOnUntil(q, rows, n)
    ensures Truncated(AllMatches(q, rows[..n])) == Truncated(AllMatches(q, rows))
    ensures StopsAfter(q, rows, n)
  {
    PrefixMatches(q, rows, n);
  }

  lemma GoesOn(q: Query, rows: seq<Row>, n: nat)
    requires n < |rows| && GoesOnUntil(q, rows, n) && |AllMatches(q, rows[..n])| < MAX_THRESHOLD_MATCHES
    ensures GoesOnUntil(q, rows, n + 1)
  {}

  /** The early-exit loops report exactly the first twenty of all matches, and count the
      parseable rows among those visited. */
  method ScanPayloads(q: Query, rows: seq<Row>) returns (matches: seq<Match>, parseable: nat, ghost visited: nat)
    ensures matches == Truncated(AllMatches(q, rows))
    ensures StopsAfter(q, rows, visited)
    ensures parseable == ParseableCount(rows[..visited])
  {
    matches, parseable, visited := [], 0, 0;
    for i := 0 to |rows|
      invariant visited == i && matches == AllMatches(q, rows[..i]) && |matches| < MAX_THRESHOLD_MATCHES
      invariant parseable == ParseableCount(rows[..i])
      invariant GoesOnUntil(q, rows, i)
    {
      OneMoreRow(q, rows, i);
      GoesOn(q, rows, i);
      visited := i + 1;
      if Parseable(rows[i]) {
        parseable := parseable + 1;
        var leaves := CollectNumericValues(rows[i].payload, "", []);
        assert leaves == Leaves(rows[i].payload, "");
        matches := ScanLeaves(q, rows[i].name, leaves, matches);
        if |matches| >= MAX_THRESHOLD_MATCHES {
          EnoughFound(q, rows, i + 1);
          break;
        }
      } else {
        UnparseableHasNoLeaves(q, rows[i]);
      }
    }
    assert rows[..|rows|] == rows;
  }

  ghost predicate HasPayload(row: Row) { !row.payload.Null? && !row.payload.Text? }

  ghost function WithPayload(rows: seq<Row>): set<nat> {
    set i: nat | i < |rows| && HasPayload(rows[i])
  }

  /** The parseable rows are those whose payload is neither missing nor a text. */
  lemma {:induction false} ParseableIsCounted(rows: seq<Row>)
    ensures ParseableCount(rows) == |WithPayload(rows)|
  {
    if rows != [] {
      var n := |rows| - 1;
      ParseableIsCounted(rows[..n]);
      assert WithPayload(rows) == WithPayload(rows[..n]) + if HasPayload(rows[n]) then {n} else {};
    }
  }

  /** A row, and a leaf of its payload with a configured name and a value above the threshold. */
  ghost predicate Satisfies(q: Query, rows: seq<Row>, m: Match) {
    exists i :: && 0 <= i < |rows| && rows[i].name == m.name && m.leaf in Leaves(rows[i].payload, "")
                && q.configured(m.leaf.path) && m.leaf.value > q.threshold
  }

  lemma {:induction false} MatchesAreHits(q: Query, name: string, leaves: seq<Leaf>, m: Match)
    ensures m in LeafMatches(q, name, leaves) <==> m.name == name && m.leaf in leaves && Hit(q, m.leaf)
  {
    if leaves != [] { MatchesAreHits(q, name, leaves[..|leaves| - 1], m); }
  }

  lemma {:induction false} AllMatchesAreHits(q: Query, rows: seq<Row>, m: Match)
    ensures m in AllMatches(q, rows) <==> Satisfies(q, rows, m)
  {
    if rows != [] {
      var n := |rows| - 1;
      AllMatchesAreHits(q, rows[..n], m);
      MatchesAreHits(q, rows[n].name, Leaves(rows[n].payload, ""), m);
      assert forall i :: 0 <= i < n ==> rows[..n][i] == rows[i];
    }
  }

  /** Every reported match is real, and fewer than twenty matches means none was missed. */
  lemma {:induction false} NothingMissedBelowTheCap(q: Query, rows: seq<Row>, m: Match)
    ensures var reported := Truncated(AllMatches(q, rows));
            && (m in reported ==> Satisfies(q, rows, m))
            && (|reported| < MAX_THRESHOLD_MATCHES ==> (m in reported <==> Satisfies(q, rows, m)))
  {
    AllMatchesAreHits(q, rows, m);
  }
}

/** What the linker reports, row by row: for each label the rows found, in order, with every
    row that repeats an earlier one's references left out. */
module ResourceReport {
  import opened ResourceLinker

  // ----- References -----

  /** The reference values of a document are the non-empty ids and normalised texts of its
      reference fields, all of them. */
  lemma {:induction false} ReferencesExactly(t: Text, doc: Document, v: string)
    ensures v in References(t, doc) <==>
            && v != ""
            && exists k :: 0 <= k < |doc.fields| && (v == doc.fields[k].reference || v == t.norm(doc.fields[k].text))
  {
    forall k | 0 <= k < |doc.fields| ensures doc.fields[k] in doc.fields {}
  }

  /** Two values are the same reference when they are equal, as they are or in the form in
      which they are compared: normalised, unless that leaves nothing. */
  ghost predicate SameReference(t: Text, v: string, r: string) {
    || v == r
    || (if t.norm(v) != "" then t.norm(v) else v) == (if t.norm(r) != "" then t.norm(r) else r)
  }

  /** Two documents are linked when some reference of the one is the same as one of the other. */
  lemma {:induction false} LinkedExactly(t: Text, a: Document, b: Document)
    ensures Linked(t, a, b) <==>
            exists v, r :: v in References(t, b) && r in References(t, a) && SameReference(t, v, r)
  {
    if v, r :| v in References(t, b) && r in References(t, a) && SameReference(t, v, r) { assert r != ""; }
  }

  // ----- Lists of rows -----

  /** `xs` lists, in order, the rows at exactly the picked positions. */
  ghost predicate ListsAt(rows: seq<Row>, picks: set<nat>, at: seq<nat>, xs: seq<Row>) {
    && |at| == |xs|
    && (forall k :: 0 <= k < |at| ==> at[k] < |rows| && at[k] in picks && xs[k] == rows[at[k]])
    && (forall k, l :: 0 <= k < l < |at| ==> at[k] < at[l])
    && forall i :: i in picks && i < |rows| ==> i in at
  }

  ghost predicate Lists(rows: seq<Row>, picks: set<nat>, xs: seq<Row>) {
    exists at: seq<nat> :: ListsAt(rows, picks, at, xs)
  }

  lemma ListsPicked(rows: seq<Row>, picks: set<nat>, at: seq<nat>, xs: seq<Row>, row: Row)
    requires ListsAt(rows, picks, at, xs) && |rows| in picks
    ensures ListsAt(rows + [row], picks, at + [|rows|], xs + [row])
  {
    var more := at + [|rows|];
    assert more[|at|] == |rows|;
    forall i | i in picks && i < |rows| + 1 ensures i in more {
      if i < |rows| { assert i in at; }
    }
  }

  lemma ListsSkipped(rows: seq<Row>, picks: set<nat>, at: seq<nat>, xs: seq<Row>, row: Row)
    requires ListsAt(rows, picks, at, xs) && |rows| !in picks
    ensures ListsAt(rows + [row], picks, at, xs)
  {}

  lemma ListsSamePicks(rows: seq<Row>, a: set<nat>, b: set<nat>, xs: seq<Row>)
    requires Lists(rows, a, xs) && forall i :: 0 <= i < |rows| ==> (i in a <==> i in b)
    ensures Lists(rows, b, xs)
  {
    var at: seq<nat> :| ListsAt(rows, a, at, xs);
    assert ListsAt(rows, b, at, xs);
  }

  /** One more row: it is listed exactly when it is picked. */
  lemma ListsOneMore(front: seq<Row>, a: set<nat>, b: set<nat>, xs: seq<Row>, row: Row)
    requires Lists(front, a, xs) && forall i :: 0 <= i < |front| ==> (i in a <==> i in b)
    ensures Lists(front + [row], b, if |front| in b then xs + [row] else xs)
  {
    ListsSamePicks(front, a, b, xs);
    var at: seq<nat> :| ListsAt(front, b, at, xs);
    if |front| in b { ListsPicked(front, b, at, xs, row); } else { ListsSkipped(front, b, at, xs, row); }
  }

  lemma ListsNone(picks: set<nat>)
    ensures Lists([], picks, [])
  {
    assert ListsAt([], picks, [], []);
  }

  ghost function Matching(matches: Document -> bool, rows: seq<Row>): set<nat> {
    set i: nat | i < |rows| && matches(rows[i].doc)
  }

  lemma {:induction false} DirectLists(matches: Document -> bool, rows: seq<Row>)
    ensures Lists(rows, Matching(matches, rows), Direct(matches, rows))
  {
    if rows == [] {
      ListsNone(Matching(matches, rows));
    } else {
      var front, row := rows[..|rows| - 1], rows[|rows| - 1];
      DirectLists(matches, front);
      assert front + [row] == rows;
      DirectOneMore(matches, front, row);
      ListsOneMore(front, Matching(matches, front), Matching(matches, rows), Direct(matches, front), row);
    }
  }

  lemma DirectOneMore(matches: Document -> bool, front: seq<Row>, row: Row)
    ensures Direct(matches, front + [row]) ==
            if matches(row.doc) then Direct(matches, front) + [row] else Direct(matches, front)
  {
    assert (front + [row])[..|front|] == front;
  }

  ghost function AcceptedIn(t: Text, refs: set<string>, rows: seq<Row>): set<nat> {
    set i: nat | i < |rows| && AcceptedAt(t, refs, rows, i)
  }

  lemma {:induction false} TakenLists(t: Text, refs: set<string>, rows: seq<Row>)
    ensures Lists(rows, AcceptedIn(t, refs, rows), Taken(t, refs, rows))
  {
    if rows == [] {
      ListsNone(AcceptedIn(t, refs, rows));
    } else {
      var front, row := rows[..|rows| - 1], rows[|rows| - 1];
      TakenLists(t, refs, front);
      forall i | 0 <= i < |front| ensures i in AcceptedIn(t, refs, front) <==> i in AcceptedIn(t, refs, rows) {
        AcceptedOfFront(t, refs, rows, i);
      }
      assert front + [row] == rows;
      TakenOneMore(t, refs, front, row);
      ListsOneMore(front, AcceptedIn(t, refs, front), AcceptedIn(t, refs, rows), Taken(t, refs, front), row);
    }
  }

  lemma TakenOneMore(t: Text, refs: set<string>, front: seq<Row>, row: Row)
    ensures var xs := Taken(t, refs, front);
            Taken(t, refs, front + [row]) == if |front| in AcceptedIn(t, refs, front + [row]) then xs + [row] else xs
  {
    assert (front + [row])[..|front|] == front;
  }

  ghost function Touching(t: Text, refs: set<string>, rows: seq<Row>): set<nat> {
    set i: nat | i < |rows| && Accepts(t, refs, rows[i])
  }

  lemma {:induction false} UnlearnedLists(t: Text, refs: set<string>, rows: seq<Row>)
    ensures Lists(rows, Touching(t, refs, rows), TakenWithoutLearning(t, refs, rows))
  {
    if rows == [] {
      ListsNone(Touching(t, refs, rows));
    } else {
      var front, row := rows[..|rows| - 1], rows[|rows| - 1];
      var xs := TakenWithoutLearning(t, refs, front);
      UnlearnedLists(t, refs, front);
      assert front + [row] == rows;
      UnlearnedOneMore(t, refs, front, row);
      ListsOneMore(front, Touching(t, refs, front), Touching(t, refs, rows), xs, row);
    }
  }

  lemma UnlearnedOneMore(t: Text, refs: set<string>, front: seq<Row>, row: Row)
    ensures var xs := TakenWithoutLearning(t, refs, front);
            TakenWithoutLearning(t, refs, front + [row]) == if Accepts(t, refs, row) then xs + [row] else xs
  {
    assert (front + [row])[..|front|] == front;
  }

  // ----- Which of the rows found are reported -----

  /** Two rows repeat each other when they have the same, non-empty set of references; a row
      without references repeats only itself. */
  ghost predicate Repeats(t: Text, x: Row, y: Row) {
    References(t, x.doc) == References(t, y.doc) && (References(t, x.doc) == {} ==> x == y)
  }

  /** `out` lists, in order, the rows found that repeat no earlier one; every row found is
      repeated by a reported one that was found no later than it. */
  ghost predicate ReportsAt(t: Text, found: seq<Row>, at: seq<nat>, out: seq<Row>) {
    && |at| == |out|
    && (forall k :: 0 <= k < |at| ==> at[k] < |found| && out[k] == found[at[k]])
    && (forall k, l :: 0 <= k < l < |at| ==> at[k] < at[l] && !Repeats(t, out[k], out[l]))
    && forall i :: 0 <= i < |found| ==> IsRepresented(t, found, at, i)
  }

  ghost predicate IsRepresented(t: Text, found: seq<Row>, at: seq<nat>, i: nat)
    requires i < |found|
  {
    exists k :: 0 <= k < |at| && at[k] <= i && at[k] < |found| && Repeats(t, found[at[k]], found[i])
  }

  ghost predicate Reports(t: Text, found: seq<Row>, out: seq<Row>) {
    exists at: seq<nat> :: ReportsAt(t, found, at, out)
  }

  lemma KeysAgree(t: Text, x: Row, y: Row)
    ensures KeyOf(t, x) == KeyOf(t, y) <==> Repeats(t, x, y)
  {}

  lemma KeyReported(t: Text, kept: seq<Row>, row: Row)
    ensures KeyOf(t, row) in Keys(t, kept) <==> exists k :: 0 <= k < |kept| && Repeats(t, kept[k], row)
  {
    if KeyOf(t, row) in Keys(t, kept) {
      var x :| x in kept && KeyOf(t, x) == KeyOf(t, row);
      KeysAgree(t, x, row);
    }
    if k :| 0 <= k < |kept| && Repeats(t, kept[k], row) {
      KeysAgree(t, kept[k], row);
      assert kept[k] in kept;
    }
  }

  lemma ReportsRepeated(t: Text, found: seq<Row>, at: seq<nat>, out: seq<Row>, row: Row, k: nat)
    requires ReportsAt(t, found, at, out) && k < |out| && Repeats(t, out[k], row)
    ensures ReportsAt(t, found + [row], at, out)
  {
    var all := found + [row];
    forall i | 0 <= i < |all| ensures IsRepresented(t, all, at, i) {
      if i < |found| { assert IsRepresented(t, found, at, i); } else { assert all[at[k]] == out[k]; }
    }
  }

  lemma ReportsNew(t: Text, found: seq<Row>, at: seq<nat>, out: seq<Row>, row: Row)
    requires ReportsAt(t, found, at, out) && forall k :: 0 <= k < |out| ==> !Repeats(t, out[k], row)
    ensures ReportsAt(t, found + [row], at + [|found|], out + [row])
  {
    var all, next := found + [row], at + [|found|];
    forall i | 0 <= i < |all| ensures IsRepresented(t, all, next, i) {
      if i < |found| {
        assert IsRepresented(t, found, at, i);
        var k :| 0 <= k < |at| && at[k] <= i && at[k] < |found| && Repeats(t, found[at[k]], found[i]);
        assert next[k] == at[k] && all[at[k]] == found[at[k]] && all[i] == found[i];
      } else {
        assert next[|at|] == i && Repeats(t, row, row);
      }
    }
  }

  /** De-duplication reports exactly the first row of each set of references, in order, and
      every row that has none. */
  lemma {:induction false} DedupReports(t: Text, found: seq<Row>) returns (at: seq<nat>)
    ensures ReportsAt(t, found, at, Deduped(t, found))
  {
    at := [];
    if found != [] {
      var front, row := found[..|found| - 1], found[|found| - 1];
      var kept := Deduped(t, front);
      at := DedupReports(t, front);
      KeyReported(t, kept, row);
      assert front + [row] == found;
      if k :| 0 <= k < |kept| && Repeats(t, kept[k], row) {
        ReportsRepeated(t, front, at, kept, row, k);
      } else {
        ReportsNew(t, front, at, kept, row);
        at := at + [|front|];
      }
    }
  }

  // ----- Every label -----

  /** A label reports the rows matched directly, then the linked ones, each in their own order
      and without repetitions. */
  ghost predicate ReportsLabel(t: Text, rows: seq<Row>, direct: set<nat>, linked: set<nat>, out: seq<Row>) {
    exists d, l :: Lists(rows, direct, d) && Lists(rows, linked, l) && Reports(t, d + l, out)
  }

  lemma LabelReported(t: Text, rows: seq<Row>, direct: set<nat>, linked: set<nat>, d: seq<Row>, l: seq<Row>)
    requires Lists(rows, direct, d) && Lists(rows, linked, l)
    ensures ReportsLabel(t, rows, direct, linked, Deduped(t, d + l))
  {
    var at := DedupReports(t, d + l);
  }

  lemma DirectLabelReported(t: Text, matches: Document -> bool, rows: seq<Row>)
    ensures ReportsLabel(t, rows, Matching(matches, rows), {}, Deduped(t, Direct(matches, rows)))
  {
    DirectLists(matches, rows);
    assert ListsAt(rows, {}, [], []);
    assert Direct(matches, rows) + [] == Direct(matches, rows);
    LabelReported(t, rows, Matching(matches, rows), {}, Direct(matches, rows), []);
  }

  /** The rows of pass[lo..hi], numbered from lo, that a chain of links in processing order
      reaches. */
  ghost function ReachedBetween(t: Text, seeds: set<string>, pass: seq<Row>, lo: nat, hi: nat): set<nat>
    requires lo <= hi <= |pass|
  {
    set i: nat | i < hi - lo && ReachedFrom(t, seeds, pass, lo, i)
  }

  ghost predicate ReachedFrom(t: Text, seeds: set<string>, pass: seq<Row>, lo: nat, i: nat) {
    lo + i < |pass| && Reached(t, seeds, pass, lo + i)
  }

  /** The rows that such a chain reaches when they come after the pass, one at a time. */
  ghost function ReachedAfter(t: Text, seeds: set<string>, pass: seq<Row>, rows: seq<Row>): set<nat> {
    set i: nat | i < |rows| && Reached(t, seeds, pass + [rows[i]], |pass|)
  }

  lemma AcceptedAreReached(t: Text, refs: set<string>, a: seq<Row>, b: seq<Row>, c: seq<Row>)
    ensures forall i :: 0 <= i < |b| ==>
              (i in AcceptedIn(t, Known(t, refs, a), b) <==> i in ReachedBetween(t, refs, a + b + c, |a|, |a| + |b|))
  {
    forall i | 0 <= i < |b|
      ensures i in AcceptedIn(t, Known(t, refs, a), b) <==> i in ReachedBetween(t, refs, a + b + c, |a|, |a| + |b|)
    {
      ReachedInSegment(t, refs, a, b, c, i);
    }
  }

  lemma StageReported(t: Text, refs: set<string>, a: seq<Row>, b: seq<Row>, c: seq<Row>)
    ensures ReportsLabel(t, b, Matching(t.matches, b), ReachedBetween(t, refs, a + b + c, |a|, |a| + |b|),
                         Deduped(t, Direct(t.matches, b) + Taken(t, Known(t, refs, a), b)))
  {
    var known, reached := Known(t, refs, a), ReachedBetween(t, refs, a + b + c, |a|, |a| + |b|);
    DirectLists(t.matches, b);
    TakenLists(t, known, b);
    AcceptedAreReached(t, refs, a, b, c);
    ListsSamePicks(b, AcceptedIn(t, known, b), reached, Taken(t, known, b));
    LabelReported(t, b, Matching(t.matches, b), reached, Direct(t.matches, b), Taken(t, known, b));
  }

  lemma UriReported(t: Text, refs: set<string>, pass: seq<Row>, rows: seq<Row>)
    ensures ReportsLabel(t, rows, Matching(t.matches, rows), ReachedAfter(t, refs, pass, rows),
                         Deduped(t, Direct(t.matches, rows) + TakenWithoutLearning(t, Known(t, refs, pass), rows)))
  {
    var known, reached := Known(t, refs, pass), ReachedAfter(t, refs, pass, rows);
    DirectLists(t.matches, rows);
    UnlearnedLists(t, known, rows);
    forall i | 0 <= i < |rows| ensures i in Touching(t, known, rows) <==> i in reached {
      AcceptedIffReached(t, refs, pass + [rows[i]], |pass|);
      assert (pass + [rows[i]])[..|pass|] == pass;
    }
    ListsSamePicks(rows, Touching(t, known, rows), reached, TakenWithoutLearning(t, known, rows));
    LabelReported(t, rows, Matching(t.matches, rows), reached,
                  Direct(t.matches, rows), TakenWithoutLearning(t, known, rows));
  }

  /** Exactly which rows each label reports, and in which order. */
  lemma {:induction false} RelatedReports(t: Text, rows: Rows)
    ensures var out, seeds, pass := Related(t, rows), Seeds(t, rows), Pass(rows);
            var nc, na := |rows.cnt|, |rows.ae|;
            && ReportsLabel(t, rows.identity, Matching(t.matches, rows.identity), {}, out.identity)
            && ReportsLabel(t, rows.cin, Matching(t.cinMatches, rows.cin), {}, out.cin)
            && ReportsLabel(t, rows.cnt, Matching(t.matches, rows.cnt), ReachedBetween(t, seeds, pass, 0, nc), out.cnt)
            && ReportsLabel(t, rows.ae, Matching(t.matches, rows.ae),
                            ReachedBetween(t, seeds, pass, nc, nc + na), out.ae)
            && ReportsLabel(t, rows.subscription, Matching(t.matches, rows.subscription),
                            ReachedBetween(t, seeds, pass, nc + na, |pass|), out.subscription)
            && ReportsLabel(t, rows.uriMapper, Matching(t.matches, rows.uriMapper),
                            ReachedAfter(t, seeds, pass, rows.uriMapper), out.uriMapper)
  {
    DirectLabelReported(t, t.matches, rows.identity);
    DirectLabelReported(t, t.cinMatches, rows.cin);
    PassStages(t, rows);
    UriReported(t, Seeds(t, rows), Pass(rows), rows.uriMapper);
    KnownConcat(t, Seeds(t, rows), rows.cnt, rows.ae);
    KnownConcat(t, Seeds(t, rows), rows.cnt + rows.ae, rows.subscription);
  }

  lemma PassStages(t: Text, rows: Rows)
    ensures var out, seeds, pass := Related(t, rows), Seeds(t, rows), Pass(rows);
            var nc, na := |rows.cnt|, |rows.ae|;
            && ReportsLabel(t, rows.cnt, Matching(t.matches, rows.cnt), ReachedBetween(t, seeds, pass, 0, nc), out.cnt)
            && ReportsLabel(t, rows.ae, Matching(t.matches, rows.ae),
                            ReachedBetween(t, seeds, pass, nc, nc + na), out.ae)
            && ReportsLabel(t, rows.subscription, Matching(t.matches, rows.subscription),
                            ReachedBetween(t, seeds, pass, nc + na, |pass|), out.subscription)
  {
    ContainersReported(t, rows);
    EntitiesReported(t, rows);
    SubscriptionsReported(t, rows);
  }

  lemma ContainersReported(t: Text, rows: Rows)
    ensures ReportsLabel(t, rows.cnt, Matching(t.matches, rows.cnt),
                         ReachedBetween(t, Seeds(t, rows), Pass(rows), 0, |rows.cnt|), Related(t, rows).cnt)
  {
    var seeds := Seeds(t, rows);
    PassSplits(rows);
    StageOfPass(t, seeds, seeds, Pass(rows), [], rows.cnt, rows.ae + rows.subscription, 0, |rows.cnt|);
  }

  lemma EntitiesReported(t: Text, rows: Rows)
    ensures var lo := |rows.cnt|;
            ReportsLabel(t, rows.ae, Matching(t.matches, rows.ae),
                         ReachedBetween(t, Seeds(t, rows), Pass(rows), lo, lo + |rows.ae|), Related(t, rows).ae)
  {
    var seeds, lo := Seeds(t, rows), |rows.cnt|;
    PassSplits(rows);
    StageOfPass(t, seeds, Known(t, seeds, rows.cnt), Pass(rows),
                rows.cnt, rows.ae, rows.subscription, lo, lo + |rows.ae|);
  }

  lemma SubscriptionsReported(t: Text, rows: Rows)
    ensures var lo := |rows.cnt| + |rows.ae|;
            ReportsLabel(t, rows.subscription, Matching(t.matches, rows.subscription),
                         ReachedBetween(t, Seeds(t, rows), Pass(rows), lo, |Pass(rows)|), Related(t, rows).subscription)
  {
    var a, known := rows.cnt + rows.ae, Known(t, Known(t, Seeds(t, rows), rows.cnt), rows.ae);
    KnownConcat(t, Seeds(t, rows), rows.cnt, rows.ae);
    assert AfterStage(t, Seeds(t, rows), a, known, |rows.cnt| + |rows.ae|);
    SubscriptionIsStage(t, rows);
    LastStage(t, Seeds(t, rows), known, Pass(rows), a, rows.subscription, |rows.cnt| + |rows.ae|,
              Related(t, rows).subscription);
  }

  ghost predicate AfterStage(t: Text, refs: set<string>, a: seq<Row>, known: set<string>, lo: nat) {
    known == Known(t, refs, a) && lo == |a|
  }

  ghost predicate IsStage(t: Text, known: set<string>, b: seq<Row>, out: seq<Row>) {
    out == Deduped(t, Direct(t.matches, b) + Taken(t, known, b))
  }

  lemma SubscriptionIsStage(t: Text, rows: Rows)
    ensures IsStage(t, Known(t, Known(t, Seeds(t, rows), rows.cnt), rows.ae), rows.subscription,
                    Related(t, rows).subscription)
  {}

  lemma LastStage(
    t: Text, refs: set<string>, known: set<string>, pass: seq<Row>, a: seq<Row>, b: seq<Row>, lo: nat, out: seq<Row>)
    requires pass == a + b && AfterStage(t, refs, a, known, lo) && IsStage(t, known, b, out)
    ensures ReportsLabel(t, b, Matching(t.matches, b), ReachedBetween(t, refs, pass, lo, |pass|), out)
  {
    assert a + b + [] == pass;
    StageReported(t, refs, a, b, []);
  }

  lemma StageOfPass(
    t: Text, refs: set<string>, known: set<string>, pass: seq<Row>, a: seq<Row>, b: seq<Row>, c: seq<Row>,
    lo: nat, hi: nat)
    requires pass == a + b + c && known == Known(t, refs, a) && lo == |a| && hi == |a| + |b|
    ensures ReportsLabel(t, b, Matching(t.matches, b), ReachedBetween(t, refs, pass, lo, hi),
                         Deduped(t, Direct(t.matches, b) + Taken(t, known, b)))
  {
    StageReported(t, refs, a, b, c);
  }

  lemma PassSplits(rows: Rows)
    ensures [] + rows.cnt + (rows.ae + rows.subscription) == Pass(rows)
    ensures rows.cnt + rows.ae + rows.subscription == Pass(rows)
    ensures (rows.cnt + rows.ae) + rows.subscription + [] == Pass(rows)
  {}
}

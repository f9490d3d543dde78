/** Linking OneM2M resources to an identifier: one pass that chases references from the
    direct matches through containers, application entities, subscriptions and URI
    mappings, then drops rows with a repeated key. */
module ResourceLinker {

  /** A reference-bearing value: its reference id and its text (they differ for DBRefs). */
  datatype Field = Field(reference: string, text: string)

  /** `fields` are the present values under the reference keys; `rest` is all else. */
  datatype Document = Document(fields: seq<Field>, rest: string)

  /** A row is an object with a document: equal documents may be distinct objects. */
  datatype Row = Row(uid: nat, doc: Document)

  datatype Rows = Rows(
    identity: seq<Row>, cin: seq<Row>, cnt: seq<Row>, ae: seq<Row>, subscription: seq<Row>, uriMapper: seq<Row>)

  /** Key normalisation, and the direct-match tests for the identifier at hand. */
  datatype Text = Text(norm: string -> string, matches: Document -> bool, cinMatches: Document -> bool)

  datatype Key = ByReferences(refs: set<string>) | ByObject(row: Row)

  function References(t: Text, doc: Document): set<string> {
    ((set f | f in doc.fields :: f.reference) + (set f | f in doc.fields :: t.norm(f.text))) - {""}
  }

  function Canonical(t: Text, value: string): string {
    if t.norm(value) != "" then t.norm(value) else value
  }

  predicate ReferencesAny(t: Text, doc: Document, refs: set<string>) {
    exists v, r :: v in References(t, doc) && r in refs && r != "" && (v == r || Canonical(t, v) == Canonical(t, r))
  }

  /** Two documents share a raw or a normalised reference value. */
  ghost predicate Linked(t: Text, a: Document, b: Document) {
    ReferencesAny(t, b, References(t, a))
  }

  function KeyOf(t: Text, row: Row): Key {
    if References(t, row.doc) == {} then ByObject(row) else ByReferences(References(t, row.doc))
  }

  // ----- The pass, as functions -----

  predicate Accepts(t: Text, refs: set<string>, row: Row) {
    t.matches(row.doc) || ReferencesAny(t, row.doc, refs)
  }

  /** The references known after a pass over `rows`. */
  function Known(t: Text, refs: set<string>, rows: seq<Row>): set<string> {
    if rows == [] then refs
    else
      var before, row := Known(t, refs, rows[..|rows| - 1]), rows[|rows| - 1];
      if Accepts(t, before, row) then before + References(t, row.doc) else before
  }

  function Taken(t: Text, refs: set<string>, rows: seq<Row>): seq<Row> {
    if rows == [] then []
    else
      var front, row := rows[..|rows| - 1], rows[|rows| - 1];
      Taken(t, refs, front) + if Accepts(t, Known(t, refs, front), row) then [row] else []
  }

  /** URI mappings are tested against the known references but add none. */
  function TakenWithoutLearning(t: Text, refs: set<string>, rows: seq<Row>): seq<Row> {
    if rows == [] then []
    else
      TakenWithoutLearning(t, refs, rows[..|rows| - 1]) +
      if Accepts(t, refs, rows[|rows| - 1]) then [rows[|rows| - 1]] else []
  }

  function Direct(matches: Document -> bool, rows: seq<Row>): seq<Row> {
    if rows == [] then []
    else Direct(matches, rows[..|rows| - 1]) + if matches(rows[|rows| - 1].doc) then [rows[|rows| - 1]] else []
  }

  function AllReferences(t: Text, rows: seq<Row>): set<string> {
    if rows == [] then {} else AllReferences(t, rows[..|rows| - 1]) + References(t, rows[|rows| - 1].doc)
  }

  function Keys(t: Text, rows: seq<Row>): set<Key> { set row | row in rows :: KeyOf(t, row) }

  function Deduped(t: Text, rows: seq<Row>): seq<Row> {
    if rows == [] then []
    else
      var kept, row := Deduped(t, rows[..|rows| - 1]), rows[|rows| - 1];
      if KeyOf(t, row) in Keys(t, kept) then kept else kept + [row]
  }

  /** References of the directly matched identities and content instances. */
  function Seeds(t: Text, rows: Rows): set<string> {
    AllReferences(t, Direct(t.matches, rows.identity)) + AllReferences(t, Direct(t.cinMatches, rows.cin))
  }

  function Related(t: Text, rows: Rows): Rows {
    var r0 := Seeds(t, rows);
    var r1 := Known(t, r0, rows.cnt);
    var r2 := Known(t, r1, rows.ae);
    var r3 := Known(t, r2, rows.subscription);
    Rows(
      Deduped(t, Direct(t.matches, rows.identity)),
      Deduped(t, Direct(t.cinMatches, rows.cin)),
      Deduped(t, Direct(t.matches, rows.cnt) + Taken(t, r0, rows.cnt)),
      Deduped(t, Direct(t.matches, rows.ae) + Taken(t, r1, rows.ae)),
      Deduped(t, Direct(t.matches, rows.subscription) + Taken(t, r2, rows.subscription)),
      Deduped(t, Direct(t.matches, rows.uriMapper) + TakenWithoutLearning(t, r3, rows.uriMapper)))
  }

  // ----- Exactly which rows are taken -----

  /** Row i matches directly, touches a seed, or is linked to an earlier reached row. */
  ghost predicate Reached(t: Text, seeds: set<string>, rows: seq<Row>, i: nat)
    requires i < |rows|
    decreases i
  {
    || Accepts(t, seeds, rows[i])
    || exists j :: 0 <= j < i && Reached(t, seeds, rows, j) && Linked(t, rows[j].doc, rows[i].doc)
  }

  /** A chain of links whose rows stand in processing order, from a start to row `i`. */
  ghost predicate OrderedChain(t: Text, seeds: set<string>, rows: seq<Row>, path: seq<nat>, i: nat) {
    && path != [] && path[|path| - 1] == i
    && (forall k :: 0 <= k < |path| ==> path[k] < |rows|)
    && Accepts(t, seeds, rows[path[0]])
    && forall k :: 0 < k < |path| ==> path[k - 1] < path[k] && Linked(t, rows[path[k - 1]].doc, rows[path[k]].doc)
  }

  lemma {:induction false} ReachedByChain(t: Text, seeds: set<string>, rows: seq<Row>, i: nat) returns (path: seq<nat>)
    requires i < |rows| && Reached(t, seeds, rows, i)
    ensures OrderedChain(t, seeds, rows, path, i)
    decreases i
  {
    if Accepts(t, seeds, rows[i]) {
      path := [i];
    } else {
      var j :| 0 <= j < i && Reached(t, seeds, rows, j) && Linked(t, rows[j].doc, rows[i].doc);
      var p := ReachedByChain(t, seeds, rows, j);
      path := p + [i];
    }
  }

  lemma {:induction false} ChainReaches(t: Text, seeds: set<string>, rows: seq<Row>, path: seq<nat>, i: nat)
    requires OrderedChain(t, seeds, rows, path, i)
    ensures i < |rows| && Reached(t, seeds, rows, i)
    decreases |path|
  {
    if |path| > 1 {
      var front := path[..|path| - 1];
      ChainReaches(t, seeds, rows, front, front[|front| - 1]);
    }
  }

  /** Row j passes the test at the moment the pass gets to it. */
  ghost predicate AcceptedAt(t: Text, seeds: set<string>, rows: seq<Row>, j: int) {
    0 <= j < |rows| && Accepts(t, Known(t, seeds, rows[..j]), rows[j])
  }

  lemma TouchesUnion(t: Text, doc: Document, a: set<string>, b: set<string>)
    ensures ReferencesAny(t, doc, a + b) <==> ReferencesAny(t, doc, a) || ReferencesAny(t, doc, b)
  {}

  lemma {:induction false} TouchesKnown(t: Text, seeds: set<string>, rows: seq<Row>, doc: Document)
    ensures ReferencesAny(t, doc, Known(t, seeds, rows)) <==>
            ReferencesAny(t, doc, seeds) || LinkedToAccepted(t, seeds, rows, doc)
  {
    if rows != [] {
      var front, row := rows[..|rows| - 1], rows[|rows| - 1];
      TouchesKnown(t, seeds, front, doc);
      TouchesUnion(t, doc, Known(t, seeds, front), References(t, row.doc));
      LinkedToAcceptedStep(t, seeds, rows, doc);
    }
  }

  ghost predicate LinkedToAccepted(t: Text, seeds: set<string>, rows: seq<Row>, doc: Document) {
    exists j :: AcceptedAt(t, seeds, rows, j) && Linked(t, rows[j].doc, doc)
  }

  lemma AcceptedOfFront(t: Text, seeds: set<string>, rows: seq<Row>, j: nat)
    requires j < |rows| - 1
    ensures AcceptedAt(t, seeds, rows[..|rows| - 1], j) <==> AcceptedAt(t, seeds, rows, j)
    ensures rows[..|rows| - 1][j] == rows[j]
  {
    assert rows[..|rows| - 1][..j] == rows[..j];
  }

  lemma LinkedToAcceptedStep(t: Text, seeds: set<string>, rows: seq<Row>, doc: Document)
    requires rows != []
    ensures var front, row := rows[..|rows| - 1], rows[|rows| - 1];
            LinkedToAccepted(t, seeds, rows, doc) <==>
            || LinkedToAccepted(t, seeds, front, doc)
            || (Accepts(t, Known(t, seeds, front), row) && Linked(t, row.doc, doc))
  {
    var n := |rows| - 1;
    if j :| AcceptedAt(t, seeds, rows[..n], j) && Linked(t, rows[..n][j].doc, doc) {
      AcceptedOfFront(t, seeds, rows, j);
    }
    if j :| AcceptedAt(t, seeds, rows, j) && Linked(t, rows[j].doc, doc) {
      if j < n { AcceptedOfFront(t, seeds, rows, j); }
    }
    if Accepts(t, Known(t, seeds, rows[..n]), rows[n]) { assert AcceptedAt(t, seeds, rows, n); }
  }

  /** The one-pass test accepts row i if and only if an ordered chain of links reaches it. */
  lemma {:induction false} AcceptedIffReached(t: Text, seeds: set<string>, rows: seq<Row>, i: nat)
    requires i < |rows|
    ensures AcceptedAt(t, seeds, rows, i) <==> Reached(t, seeds, rows, i)
    decreases i
  {
    TouchesKnown(t, seeds, rows[..i], rows[i].doc);
    forall j | 0 <= j < i ensures AcceptedAt(t, seeds, rows[..i], j) <==> Reached(t, seeds, rows, j) {
      assert rows[..i][..j] == rows[..j];
      AcceptedIffReached(t, seeds, rows, j);
    }
  }

  // ----- The staged pass is one pass over containers, entities and subscriptions -----

  function Pass(rows: Rows): seq<Row> { rows.cnt + rows.ae + rows.subscription }

  lemma {:induction false} KnownConcat(t: Text, refs: set<string>, a: seq<Row>, b: seq<Row>)
    ensures Known(t, refs, a + b) == Known(t, Known(t, refs, a), b)
  {
    if b == [] {
      assert a + b == a;
    } else {
      KnownConcat(t, refs, a, b[..|b| - 1]);
      assert (a + b)[..|a + b| - 1] == a + b[..|b| - 1];
    }
  }

  lemma AcceptedInSegment(t: Text, refs: set<string>, a: seq<Row>, b: seq<Row>, c: seq<Row>, i: nat)
    requires i < |b|
    ensures AcceptedAt(t, Known(t, refs, a), b, i) <==> AcceptedAt(t, refs, a + b + c, |a| + i)
  {
    KnownConcat(t, refs, a, b[..i]);
    SegmentSlices(a, b, c, i);
  }

  lemma SegmentSlices(a: seq<Row>, b: seq<Row>, c: seq<Row>, i: nat)
    requires i < |b|
    ensures (a + b + c)[..|a| + i] == a + b[..i] && (a + b + c)[|a| + i] == b[i]
  {}

  lemma {:induction false} TakenAreAccepted(t: Text, refs: set<string>, rows: seq<Row>, x: Row)
    ensures x in Taken(t, refs, rows) <==> TakenAt(t, refs, rows, x)
  {
    if rows != [] {
      TakenAreAccepted(t, refs, rows[..|rows| - 1], x);
      TakenAtStep(t, refs, rows, x);
    }
  }

  /** Some accepted row is x. */
  ghost predicate TakenAt(t: Text, refs: set<string>, rows: seq<Row>, x: Row) {
    exists i :: AcceptedAt(t, refs, rows, i) && rows[i] == x
  }

  lemma TakenAtStep(t: Text, refs: set<string>, rows: seq<Row>, x: Row)
    requires rows != []
    ensures var n := |rows| - 1;
            TakenAt(t, refs, rows, x) <==>
            TakenAt(t, refs, rows[..n], x) || (Accepts(t, Known(t, refs, rows[..n]), rows[n]) && rows[n] == x)
  {
    var n := |rows| - 1;
    if i :| AcceptedAt(t, refs, rows[..n], i) && rows[..n][i] == x { AcceptedOfFront(t, refs, rows, i); }
    if i :| AcceptedAt(t, refs, rows, i) && rows[i] == x {
      if i < n { AcceptedOfFront(t, refs, rows, i); }
    }
    if Accepts(t, Known(t, refs, rows[..n]), rows[n]) { assert AcceptedAt(t, refs, rows, n); }
  }

  lemma {:induction false} FilterMembers(t: Text, matches: Document -> bool, refs: set<string>, rows: seq<Row>, x: Row)
    ensures x in Direct(matches, rows) <==> x in rows && matches(x.doc)
    ensures x in TakenWithoutLearning(t, refs, rows) <==> x in rows && Accepts(t, refs, x)
  {
    if rows != [] { FilterMembers(t, matches, refs, rows[..|rows| - 1], x); }
  }

  // ----- Deduplication -----

  ghost predicate DistinctKeys(t: Text, rows: seq<Row>) {
    forall i, j :: 0 <= i < j < |rows| ==> KeyOf(t, rows[i]) != KeyOf(t, rows[j])
  }

  lemma {:induction false} DedupKeepsKeys(t: Text, rows: seq<Row>)
    ensures DistinctKeys(t, Deduped(t, rows))
    ensures Keys(t, Deduped(t, rows)) == Keys(t, rows)
    ensures forall x :: x in Deduped(t, rows) ==> x in rows
  {
    if rows != [] {
      var front, row := rows[..|rows| - 1], rows[|rows| - 1];
      DedupKeepsKeys(t, front);
      assert rows == front + [row];
      var kept := Deduped(t, front);
      forall i | 0 <= i < |kept| ensures KeyOf(t, kept[i]) in Keys(t, kept) {}
      assert Keys(t, rows) == Keys(t, front) + {KeyOf(t, row)};
    }
  }

  // ----- Main results -----

  /** Some reached row of rows[lo..hi] has the key. */
  ghost predicate ReachedKey(t: Text, seeds: set<string>, rows: seq<Row>, lo: nat, hi: nat, k: Key)
    requires lo <= hi <= |rows|
  {
    exists i: nat :: lo <= i < hi && Reached(t, seeds, rows, i) && KeyOf(t, rows[i]) == k
  }

  ghost predicate ReachedRow(t: Text, seeds: set<string>, rows: seq<Row>, lo: nat, hi: nat, x: Row)
    requires lo <= hi <= |rows|
  {
    exists i: nat :: lo <= i < hi && Reached(t, seeds, rows, i) && rows[i] == x
  }

  lemma ReachedAtRow(t: Text, seeds: set<string>, rows: seq<Row>, lo: nat, hi: nat, i: nat)
    requires lo <= i < hi <= |rows| && Reached(t, seeds, rows, i)
    ensures ReachedRow(t, seeds, rows, lo, hi, rows[i])
  {}

  lemma ReachedInSegment(t: Text, refs: set<string>, a: seq<Row>, b: seq<Row>, c: seq<Row>, i: nat)
    requires i < |b|
    ensures AcceptedAt(t, Known(t, refs, a), b, i) <==> Reached(t, refs, a + b + c, |a| + i)
    ensures (a + b + c)[|a| + i] == b[i]
  {
    AcceptedInSegment(t, refs, a, b, c, i);
    AcceptedIffReached(t, refs, a + b + c, |a| + i);
  }

  lemma AcceptedIsReached(t: Text, refs: set<string>, a: seq<Row>, b: seq<Row>, c: seq<Row>, i: nat)
    requires i < |b| && AcceptedAt(t, Known(t, refs, a), b, i)
    ensures ReachedRow(t, refs, a + b + c, |a|, |a| + |b|, b[i])
  {
    ReachedInSegment(t, refs, a, b, c, i);
    ReachedAtRow(t, refs, a + b + c, |a|, |a| + |b|, |a| + i);
  }

  lemma TakenIsReached(t: Text, refs: set<string>, a: seq<Row>, b: seq<Row>, c: seq<Row>, x: Row)
    requires x in Taken(t, Known(t, refs, a), b)
    ensures ReachedRow(t, refs, a + b + c, |a|, |a| + |b|, x)
  {
    TakenAreAccepted(t, Known(t, refs, a), b, x);
    var i: nat :| AcceptedAt(t, Known(t, refs, a), b, i) && b[i] == x;
    AcceptedIsReached(t, refs, a, b, c, i);
  }

  lemma ReachedIsTaken(t: Text, refs: set<string>, a: seq<Row>, b: seq<Row>, c: seq<Row>, x: Row)
    requires ReachedRow(t, refs, a + b + c, |a|, |a| + |b|, x)
    ensures x in Taken(t, Known(t, refs, a), b)
  {
    var i: nat :| |a| <= i < |a| + |b| && Reached(t, refs, a + b + c, i) && (a + b + c)[i] == x;
    ReachedInSegment(t, refs, a, b, c, i - |a|);
    TakenAreAccepted(t, Known(t, refs, a), b, x);
  }

  lemma SegmentMembers(t: Text, refs: set<string>, a: seq<Row>, b: seq<Row>, c: seq<Row>, x: Row)
    ensures x in Taken(t, Known(t, refs, a), b) <==> ReachedRow(t, refs, a + b + c, |a|, |a| + |b|, x)
  {
    if x in Taken(t, Known(t, refs, a), b) { TakenIsReached(t, refs, a, b, c, x); }
    if ReachedRow(t, refs, a + b + c, |a|, |a| + |b|, x) { ReachedIsTaken(t, refs, a, b, c, x); }
  }

  lemma DirectAreTaken(t: Text, refs: set<string>, rows: seq<Row>, x: Row)
    requires x in Direct(t.matches, rows)
    ensures x in Taken(t, refs, rows)
  {
    FilterMembers(t, t.matches, refs, rows, x);
    TakenAreAccepted(t, refs, rows, x);
    var i :| 0 <= i < |rows| && rows[i] == x;
    assert AcceptedAt(t, refs, rows, i);
  }

  lemma SegmentFound(t: Text, refs: set<string>, a: seq<Row>, b: seq<Row>, c: seq<Row>, x: Row)
    ensures x in Direct(t.matches, b) + Taken(t, Known(t, refs, a), b) <==>
            ReachedRow(t, refs, a + b + c, |a|, |a| + |b|, x)
  {
    SegmentMembers(t, refs, a, b, c, x);
    if x in Direct(t.matches, b) { DirectAreTaken(t, Known(t, refs, a), b, x); }
  }

  lemma SegmentKeys(t: Text, refs: set<string>, a: seq<Row>, b: seq<Row>, c: seq<Row>, k: Key)
    ensures k in Keys(t, Deduped(t, Direct(t.matches, b) + Taken(t, Known(t, refs, a), b))) <==>
            ReachedKey(t, refs, a + b + c, |a|, |a| + |b|, k)
  {
    var found, all := Direct(t.matches, b) + Taken(t, Known(t, refs, a), b), a + b + c;
    DedupKeepsKeys(t, found);
    if k in Keys(t, found) {
      var x :| x in found && KeyOf(t, x) == k;
      SegmentFound(t, refs, a, b, c, x);
      KeyOfReachedRow(t, refs, all, |a|, |a| + |b|, x);
    }
    if ReachedKey(t, refs, all, |a|, |a| + |b|, k) {
      var x := RowOfReachedKey(t, refs, all, |a|, |a| + |b|, k);
      SegmentFound(t, refs, a, b, c, x);
    }
  }

  lemma KeyOfReachedRow(t: Text, seeds: set<string>, rows: seq<Row>, lo: nat, hi: nat, x: Row)
    requires lo <= hi <= |rows| && ReachedRow(t, seeds, rows, lo, hi, x)
    ensures ReachedKey(t, seeds, rows, lo, hi, KeyOf(t, x))
  {}

  lemma RowOfReachedKey(t: Text, seeds: set<string>, rows: seq<Row>, lo: nat, hi: nat, k: Key) returns (x: Row)
    requires lo <= hi <= |rows| && ReachedKey(t, seeds, rows, lo, hi, k)
    ensures ReachedRow(t, seeds, rows, lo, hi, x) && KeyOf(t, x) == k
  {
    var i: nat :| lo <= i < hi && Reached(t, seeds, rows, i) && KeyOf(t, rows[i]) == k;
    x := rows[i];
  }

  /** Exactly which keys are reported: direct matches for identities and content instances;
      for the others, the rows that an ordered chain of shared references reaches. */
  lemma {:induction false} RelatedExactly(t: Text, rows: Rows, k: Key)
    ensures var out, seeds, pass := Related(t, rows), Seeds(t, rows), Pass(rows);
            var nc, na := |rows.cnt|, |rows.ae|;
            && (k in Keys(t, out.identity) <==> exists x :: x in rows.identity && t.matches(x.doc) && KeyOf(t, x) == k)
            && (k in Keys(t, out.cin) <==> exists x :: x in rows.cin && t.cinMatches(x.doc) && KeyOf(t, x) == k)
            && (k in Keys(t, out.cnt) <==> ReachedKey(t, seeds, pass, 0, nc, k))
            && (k in Keys(t, out.ae) <==> ReachedKey(t, seeds, pass, nc, nc + na, k))
            && (k in Keys(t, out.subscription) <==> ReachedKey(t, seeds, pass, nc + na, |pass|, k))
            && (k in Keys(t, out.uriMapper) <==>
                exists x :: x in rows.uriMapper && Reached(t, seeds, pass + [x], |pass|) && KeyOf(t, x) == k)
  {
    DirectKeys(t, t.matches, rows.identity, k);
    DirectKeys(t, t.cinMatches, rows.cin, k);
    StageKeys(t, rows, k);
    UriKeys(t, rows, k);
  }

  lemma StageKeys(t: Text, rows: Rows, k: Key)
    ensures var out, seeds, pass := Related(t, rows), Seeds(t, rows), Pass(rows);
            var nc, na := |rows.cnt|, |rows.ae|;
            && (k in Keys(t, out.cnt) <==> ReachedKey(t, seeds, pass, 0, nc, k))
            && (k in Keys(t, out.ae) <==> ReachedKey(t, seeds, pass, nc, nc + na, k))
            && (k in Keys(t, out.subscription) <==> ReachedKey(t, seeds, pass, nc + na, |pass|, k))
  {
    var seeds, pass := Seeds(t, rows), Pass(rows);
    assert [] + rows.cnt + (rows.ae + rows.subscription) == pass;
    SegmentKeys(t, seeds, [], rows.cnt, rows.ae + rows.subscription, k);
    assert rows.cnt + rows.ae + rows.subscription == pass;
    SegmentKeys(t, seeds, rows.cnt, rows.ae, rows.subscription, k);
    KnownConcat(t, seeds, rows.cnt, rows.ae);
    assert (rows.cnt + rows.ae) + rows.subscription + [] == pass;
    SegmentKeys(t, seeds, rows.cnt + rows.ae, rows.subscription, [], k);
    KnownConcat(t, seeds, rows.cnt + rows.ae, rows.subscription);
  }

  lemma DirectKeys(t: Text, matches: Document -> bool, rows: seq<Row>, k: Key)
    ensures k in Keys(t, Deduped(t, Direct(matches, rows))) <==>
            exists x :: x in rows && matches(x.doc) && KeyOf(t, x) == k
  {
    DedupKeepsKeys(t, Direct(matches, rows));
    forall x ensures x in Direct(matches, rows) <==> x in rows && matches(x.doc) {
      FilterMembers(t, matches, {}, rows, x);
    }
  }

  lemma UriKeys(t: Text, rows: Rows, k: Key)
    ensures k in Keys(t, Related(t, rows).uriMapper) <==>
            exists x :: && x in rows.uriMapper && KeyOf(t, x) == k
                        && Reached(t, Seeds(t, rows), Pass(rows) + [x], |Pass(rows)|)
  {
    var seeds, pass := Seeds(t, rows), Pass(rows);
    KnownConcat(t, seeds, rows.cnt, rows.ae);
    KnownConcat(t, seeds, rows.cnt + rows.ae, rows.subscription);
    var known := Known(t, seeds, pass);
    var found := Direct(t.matches, rows.uriMapper) + TakenWithoutLearning(t, known, rows.uriMapper);
    DedupKeepsKeys(t, found);
    forall x ensures x in found <==> x in rows.uriMapper && Reached(t, seeds, pass + [x], |pass|) {
      FilterMembers(t, t.matches, known, rows.uriMapper, x);
      AcceptedIffReached(t, seeds, pass + [x], |pass|);
      assert (pass + [x])[..|pass|] == pass;
    }
  }

  lemma {:induction false} TouchesRows(t: Text, rows: seq<Row>, doc: Document)
    ensures ReferencesAny(t, doc, AllReferences(t, rows)) <==> exists x :: x in rows && Linked(t, x.doc, doc)
  {
    if rows != [] {
      var front, row := rows[..|rows| - 1], rows[|rows| - 1];
      assert rows == front + [row];
      TouchesRows(t, front, doc);
      TouchesUnion(t, doc, AllReferences(t, front), References(t, row.doc));
    }
  }

  /** A chain starts at a direct match, or at a row linked to a directly matched identity
      or content instance: nothing else can start one. */
  lemma {:induction false} ChainsStartAtDirectMatches(t: Text, rows: Rows, x: Row)
    ensures Accepts(t, Seeds(t, rows), x) <==>
            || t.matches(x.doc)
            || (exists d :: d in rows.identity && t.matches(d.doc) && Linked(t, d.doc, x.doc))
            || (exists d :: d in rows.cin && t.cinMatches(d.doc) && Linked(t, d.doc, x.doc))
  {
    var a, b := Direct(t.matches, rows.identity), Direct(t.cinMatches, rows.cin);
    TouchesRows(t, a, x.doc);
    TouchesRows(t, b, x.doc);
    TouchesUnion(t, x.doc, AllReferences(t, a), AllReferences(t, b));
    forall d ensures d in a <==> d in rows.identity && t.matches(d.doc) {
      FilterMembers(t, t.matches, {}, rows.identity, d);
    }
    forall d ensures d in b <==> d in rows.cin && t.cinMatches(d.doc) {
      FilterMembers(t, t.cinMatches, {}, rows.cin, d);
    }
  }

  lemma {:induction false} RelatedHasNoDuplicates(t: Text, rows: Rows)
    ensures var out := Related(t, rows);
            && DistinctKeys(t, out.identity) && DistinctKeys(t, out.cin) && DistinctKeys(t, out.cnt)
            && DistinctKeys(t, out.ae) && DistinctKeys(t, out.subscription) && DistinctKeys(t, out.uriMapper)
  {
    var r1 := Known(t, Seeds(t, rows), rows.cnt);
    var r2 := Known(t, r1, rows.ae);
    var r3 := Known(t, r2, rows.subscription);
    DedupKeepsKeys(t, Direct(t.matches, rows.identity));
    DedupKeepsKeys(t, Direct(t.cinMatches, rows.cin));
    DedupKeepsKeys(t, Direct(t.matches, rows.cnt) + Taken(t, Seeds(t, rows), rows.cnt));
    DedupKeepsKeys(t, Direct(t.matches, rows.ae) + Taken(t, r1, rows.ae));
    DedupKeepsKeys(t, Direct(t.matches, rows.subscription) + Taken(t, r2, rows.subscription));
    DedupKeepsKeys(t, Direct(t.matches, rows.uriMapper) + TakenWithoutLearning(t, r3, rows.uriMapper));
  }

  // ----- Monotonicity -----

  /** `a` is `b` with some rows left out. */
  ghost predicate Within(a: seq<Row>, b: seq<Row>) {
    if a == [] then true
    else b != [] && ((a[|a| - 1] == b[|b| - 1] && Within(a[..|a| - 1], b[..|b| - 1])) || Within(a, b[..|b| - 1]))
  }

  lemma {:induction false} PassIsMonotone(t: Text, r: set<string>, q: set<string>, a: seq<Row>, b: seq<Row>)
    requires r <= q && Within(a, b)
    ensures Known(t, r, a) <= Known(t, q, b)
    ensures forall x :: x in Taken(t, r, a) ==> x in Taken(t, q, b)
    decreases |b|
  {
    if b != [] {
      var bf := b[..|b| - 1];
      if a != [] && a[|a| - 1] == b[|b| - 1] && Within(a[..|a| - 1], bf) {
        PassIsMonotone(t, r, q, a[..|a| - 1], bf);
      } else {
        PassIsMonotone(t, r, q, a, bf);
      }
    }
  }

  lemma {:induction false} ReferencesGrow(t: Text, a: seq<Row>, b: seq<Row>)
    requires forall x :: x in a ==> x in b
    ensures AllReferences(t, a) <= AllReferences(t, b)
  {
    if a != [] {
      ReferencesGrow(t, a[..|a| - 1], b);
      HasReferences(t, b, a[|a| - 1]);
    }
  }

  lemma {:induction false} HasReferences(t: Text, rows: seq<Row>, x: Row)
    requires x in rows
    ensures References(t, x.doc) <= AllReferences(t, rows)
  {
    if x != rows[|rows| - 1] { HasReferences(t, rows[..|rows| - 1], x); }
  }

  ghost predicate RowsWithin(a: Rows, b: Rows) {
    && Within(a.identity, b.identity) && Within(a.cin, b.cin) && Within(a.cnt, b.cnt)
    && Within(a.ae, b.ae) && Within(a.subscription, b.subscription) && Within(a.uriMapper, b.uriMapper)
  }

  lemma DirectGrows(t: Text, matches: Document -> bool, a: seq<Row>, b: seq<Row>)
    requires forall x :: x in a ==> x in b
    ensures forall x :: x in Direct(matches, a) ==> x in Direct(matches, b)
  {
    forall x ensures x in Direct(matches, a) ==> x in Direct(matches, b) {
      FilterMembers(t, matches, {}, a, x);
      FilterMembers(t, matches, {}, b, x);
    }
  }

  /** Adding rows anywhere never removes a reported key. */
  lemma {:induction false} RelatedIsMonotone(t: Text, a: Rows, b: Rows)
    requires RowsWithin(a, b)
    ensures var p, q := Related(t, a), Related(t, b);
            && Keys(t, p.identity) <= Keys(t, q.identity) && Keys(t, p.cin) <= Keys(t, q.cin)
            && Keys(t, p.cnt) <= Keys(t, q.cnt) && Keys(t, p.ae) <= Keys(t, q.ae)
            && Keys(t, p.subscription) <= Keys(t, q.subscription) && Keys(t, p.uriMapper) <= Keys(t, q.uriMapper)
  {
    MembersWithin(a.identity, b.identity);
    MembersWithin(a.cin, b.cin);
    DirectGrows(t, t.matches, a.identity, b.identity);
    DirectGrows(t, t.cinMatches, a.cin, b.cin);
    ReferencesGrow(t, Direct(t.matches, a.identity), Direct(t.matches, b.identity));
    ReferencesGrow(t, Direct(t.cinMatches, a.cin), Direct(t.cinMatches, b.cin));
    KeysGrow(t, Direct(t.matches, a.identity), Direct(t.matches, b.identity));
    KeysGrow(t, Direct(t.cinMatches, a.cin), Direct(t.cinMatches, b.cin));
    var ra, rb := Seeds(t, a), Seeds(t, b);
    StageGrows(t, ra, rb, a.cnt, b.cnt);
    ra, rb := Known(t, ra, a.cnt), Known(t, rb, b.cnt);
    StageGrows(t, ra, rb, a.ae, b.ae);
    ra, rb := Known(t, ra, a.ae), Known(t, rb, b.ae);
    StageGrows(t, ra, rb, a.subscription, b.subscription);
    ra, rb := Known(t, ra, a.subscription), Known(t, rb, b.subscription);
    UriStageGrows(t, ra, rb, a.uriMapper, b.uriMapper);
  }

  lemma {:induction false} MembersWithin(a: seq<Row>, b: seq<Row>)
    requires Within(a, b)
    ensures forall x :: x in a ==> x in b
    decreases |b|
  {
    if a != [] {
      var af, bf := a[..|a| - 1], b[..|b| - 1];
      assert a == af + [a[|a| - 1]] && b == bf + [b[|b| - 1]];
      if a[|a| - 1] == b[|b| - 1] && Within(af, bf) { MembersWithin(af, bf); } else { MembersWithin(a, bf); }
    }
  }

  lemma KeysGrow(t: Text, a: seq<Row>, b: seq<Row>)
    requires forall x :: x in a ==> x in b
    ensures Keys(t, Deduped(t, a)) <= Keys(t, Deduped(t, b))
  {
    DedupKeepsKeys(t, a);
    DedupKeepsKeys(t, b);
  }

  lemma JointKeysGrow(t: Text, a1: seq<Row>, a2: seq<Row>, b1: seq<Row>, b2: seq<Row>)
    requires forall x :: x in a1 ==> x in b1
    requires forall x :: x in a2 ==> x in b2
    ensures Keys(t, Deduped(t, a1 + a2)) <= Keys(t, Deduped(t, b1 + b2))
  {
    KeysGrow(t, a1 + a2, b1 + b2);
  }

  lemma StageGrows(t: Text, r: set<string>, q: set<string>, a: seq<Row>, b: seq<Row>)
    requires r <= q && Within(a, b)
    ensures Known(t, r, a) <= Known(t, q, b)
    ensures Keys(t, Deduped(t, Direct(t.matches, a) + Taken(t, r, a))) <=
            Keys(t, Deduped(t, Direct(t.matches, b) + Taken(t, q, b)))
  {
    PassIsMonotone(t, r, q, a, b);
    MembersWithin(a, b);
    DirectGrows(t, t.matches, a, b);
    JointKeysGrow(t, Direct(t.matches, a), Taken(t, r, a), Direct(t.matches, b), Taken(t, q, b));
  }

  lemma UnlearnedGrows(t: Text, r: set<string>, q: set<string>, a: seq<Row>, b: seq<Row>)
    requires r <= q && forall x :: x in a ==> x in b
    ensures forall x :: x in TakenWithoutLearning(t, r, a) ==> x in TakenWithoutLearning(t, q, b)
  {
    forall x | x in TakenWithoutLearning(t, r, a) ensures x in TakenWithoutLearning(t, q, b) {
      FilterMembers(t, t.matches, r, a, x);
      FilterMembers(t, t.matches, q, b, x);
    }
  }

  lemma UriStageGrows(t: Text, r: set<string>, q: set<string>, a: seq<Row>, b: seq<Row>)
    requires r <= q && Within(a, b)
    ensures Keys(t, Deduped(t, Direct(t.matches, a) + TakenWithoutLearning(t, r, a))) <=
            Keys(t, Deduped(t, Direct(t.matches, b) + TakenWithoutLearning(t, q, b)))
  {
    MembersWithin(a, b);
    DirectGrows(t, t.matches, a, b);
    UnlearnedGrows(t, r, q, a, b);
    JointKeysGrow(t, Direct(t.matches, a), TakenWithoutLearning(t, r, a),
                  Direct(t.matches, b), TakenWithoutLearning(t, q, b));
  }

  /** Processing order matters: a container linked to the device only through an application
      entity, which the pass visits later, is missed although a chain of references exists. */
  lemma {:induction false} OutOfOrderLinkIsMissed(t: Text, id: Row, ae: Row, cnt: Row)
    requires t.matches(id.doc) && !t.matches(cnt.doc)
    requires Linked(t, id.doc, ae.doc) && Linked(t, ae.doc, cnt.doc) && !Linked(t, id.doc, cnt.doc)
    ensures var out := Related(t, Rows([id], [], [cnt], [ae], [], []));
            KeyOf(t, ae) in Keys(t, out.ae) && KeyOf(t, cnt) !in Keys(t, out.cnt)
  {
    var rows := Rows([id], [], [cnt], [ae], [], []);
    var pass := Pass(rows);
    assert pass == [cnt, ae];
    OneRow(t, {}, id);
    assert Seeds(t, rows) == References(t, id.doc);
    OutOfOrderReach(t, References(t, id.doc), ae, cnt);
    StageKeys(t, rows, KeyOf(t, ae));
    StageKeys(t, rows, KeyOf(t, cnt));
  }

  lemma OutOfOrderReach(t: Text, seeds: set<string>, ae: Row, cnt: Row)
    requires Accepts(t, seeds, ae) && !Accepts(t, seeds, cnt)
    ensures ReachedKey(t, seeds, [cnt, ae], 1, 2, KeyOf(t, ae))
    ensures !ReachedKey(t, seeds, [cnt, ae], 0, 1, KeyOf(t, cnt))
  {
    assert Reached(t, seeds, [cnt, ae], 1) && !Reached(t, seeds, [cnt, ae], 0);
  }

  /** Such rows exist. */
  lemma {:induction false} OutOfOrderExample() returns (t: Text, id: Row, ae: Row, cnt: Row)
    ensures t.matches(id.doc) && !t.matches(cnt.doc)
    ensures Linked(t, id.doc, ae.doc) && Linked(t, ae.doc, cnt.doc) && !Linked(t, id.doc, cnt.doc)
  {
    id := Row(0, Document([Field("d", "d")], "device"));
    ae := Row(1, Document([Field("d", "d"), Field("x", "x")], ""));
    cnt := Row(2, Document([Field("x", "x")], ""));
    t := Text(text => text, doc => doc == id.doc, _ => false);
    OneReference(t, id.doc, "d");
    OneReference(t, cnt.doc, "x");
    HasReference(t, ae.doc, 0);
    HasReference(t, ae.doc, 1);
    assert "d" != "x";
  }

  lemma OneReference(t: Text, doc: Document, v: string)
    requires doc.fields == [Field(v, v)] && v != "" && t.norm(v) == v
    ensures References(t, doc) == {v}
  {
    assert forall f :: f in doc.fields <==> f == doc.fields[0];
  }

  lemma HasReference(t: Text, doc: Document, k: nat)
    requires k < |doc.fields| && doc.fields[k].reference != ""
    ensures doc.fields[k].reference in References(t, doc)
  {
    assert doc.fields[k] in doc.fields;
  }

  lemma OneRow(t: Text, refs: set<string>, x: Row)
    ensures Direct(t.matches, [x]) == if t.matches(x.doc) then [x] else []
    ensures AllReferences(t, [x]) == References(t, x.doc)
  {
    assert [x][..0] == [];
  }

  // ----- The loops of the source -----

  lemma DirectMembers(t: Text, rows: seq<Row>)
    ensures forall x :: x in Direct(t.matches, rows) <==> x in rows && t.matches(x.doc)
  {
    forall x ensures x in Direct(t.matches, rows) <==> x in rows && t.matches(x.doc) {
      FilterMembers(t, t.matches, {}, rows, x);
    }
  }

  method LinkLabel(t: Text, refs: set<string>, rows: seq<Row>) returns (matched: seq<Row>, known: set<string>)
    ensures matched == Direct(t.matches, rows) + Taken(t, refs, rows)
    ensures known == Known(t, refs, rows)
  {
    matched, known := Direct(t.matches, rows), refs;
    DirectMembers(t, rows);
    for i := 0 to |rows|
      invariant matched == Direct(t.matches, rows) + Taken(t, refs, rows[..i])
      invariant known == Known(t, refs, rows[..i])
      invariant forall x :: x in matched ==>
                  t.matches(x.doc) || (References(t, x.doc) != {} && References(t, x.doc) <= known)
    {
      var row := rows[i];
      var listed := exists k :: 0 <= k < |matched| && matched[k].doc == row.doc;
      assert rows[..i + 1][..i] == rows[..i];
      DirectIffListed(t, refs, rows, i, matched, known);
      if listed || ReferencesAny(t, row.doc, known) {
        matched := matched + [row];
        known := known + References(t, row.doc);
      }
    }
    assert rows[..|rows|] == rows;
  }

  method LinkUriMappings(t: Text, refs: set<string>, rows: seq<Row>) returns (matched: seq<Row>)
    ensures matched == Direct(t.matches, rows) + TakenWithoutLearning(t, refs, rows)
  {
    matched := Direct(t.matches, rows);
    DirectMembers(t, rows);
    for i := 0 to |rows|
      invariant matched == Direct(t.matches, rows) + TakenWithoutLearning(t, refs, rows[..i])
      invariant forall x :: x in matched ==> Accepts(t, refs, x)
    {
      var row := rows[i];
      assert rows[..i + 1][..i] == rows[..i];
      if t.matches(row.doc) { assert row in matched; }
      if k :| 0 <= k < |matched| && matched[k].doc == row.doc { assert matched[k] in matched; }
      if (exists k :: 0 <= k < |matched| && matched[k].doc == row.doc) || ReferencesAny(t, row.doc, refs) {
        matched := matched + [row];
      }
    }
    assert rows[..|rows|] == rows;
  }

  /** Being listed already, by content, never changes the outcome of the test. */
  lemma DirectIffListed(t: Text, refs: set<string>, rows: seq<Row>, i: nat, matched: seq<Row>, known: set<string>)
    requires i < |rows| && forall x :: x in Direct(t.matches, rows) ==> x in matched
    requires forall x :: x in matched ==>
               t.matches(x.doc) || (References(t, x.doc) != {} && References(t, x.doc) <= known)
    ensures (exists k :: 0 <= k < |matched| && matched[k].doc == rows[i].doc) || ReferencesAny(t, rows[i].doc, known)
            <==> Accepts(t, known, rows[i])
  {
    if t.matches(rows[i].doc) {
      FilterMembers(t, t.matches, refs, rows, rows[i]);
      assert rows[i] in matched;
    }
    if k :| 0 <= k < |matched| && matched[k].doc == rows[i].doc {
      assert matched[k] in matched;
      KnownReferencesTouch(t, known, rows[i].doc);
    }
  }

  lemma KnownReferencesTouch(t: Text, known: set<string>, doc: Document)
    requires t.matches(doc) || (References(t, doc) != {} && References(t, doc) <= known)
    ensures t.matches(doc) || ReferencesAny(t, doc, known)
  {
    if !t.matches(doc) {
      var v :| v in References(t, doc);
      assert v in known && v != "";
    }
  }

  method Dedupe(t: Text, rows: seq<Row>) returns (kept: seq<Row>)
    ensures kept == Deduped(t, rows)
  {
    var seen: set<Key> := {};
    kept := [];
    for i := 0 to |rows|
      invariant kept == Deduped(t, rows[..i]) && seen == Keys(t, kept)
    {
      assert rows[..i + 1][..i] == rows[..i];
      var key := KeyOf(t, rows[i]);
      if key !in seen {
        seen := seen + {key};
        kept := kept + [rows[i]];
      }
    }
    assert rows[..|rows|] == rows;
  }

  /** Without an identifier every row is returned as it is. */
  method RelatedRows(t: Text, hasIdentifier: bool, rows: Rows) returns (out: Rows)
    ensures out == if hasIdentifier then Related(t, rows) else rows
  {
    if !hasIdentifier { return rows; }
    var identity, cin := Direct(t.matches, rows.identity), Direct(t.cinMatches, rows.cin);
    var known := AllReferences(t, identity) + AllReferences(t, cin);
    var cnt, ae, subscription;
    cnt, known := LinkLabel(t, known, rows.cnt);
    ae, known := LinkLabel(t, known, rows.ae);
    subscription, known := LinkLabel(t, known, rows.subscription);
    var uriMapper := LinkUriMappings(t, known, rows.uriMapper);
    identity := Dedupe(t, identity);
    cin := Dedupe(t, cin);
    cnt := Dedupe(t, cnt);
    ae := Dedupe(t, ae);
    subscription := Dedupe(t, subscription);
    uriMapper := Dedupe(t, uriMapper);
    out := Rows(identity, cin, cnt, ae, subscription, uriMapper);
  }
}

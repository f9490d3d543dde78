/** The IOA v3 follow-up filter: required candidates first, then compatible planner ones,
    each kept only when neither its text nor its action has been seen. */
module FollowupFilter {

  const MAX_FOLLOWUP_SUGGESTIONS: nat := 5

  /** The text functions: formatting, normalising, the action signature ("" when there is
      none) and tool compatibility. */
  datatype Text = Text(
    format: string -> string, normalize: string -> string, signature: string -> string, compatible: string -> bool)

  /** The actions already taken: the current one and the completed ones. */
  datatype Past = Past(current: string, completed: set<string>)

  /** The marks a kept follow-up leaves behind. */
  function Marks(t: Text, text: string): set<string> {
    {t.normalize(text)} + if t.signature(text) != "" then {t.signature(text)} else {}
  }

  function AllMarks(t: Text, kept: seq<string>): set<string> {
    if kept == [] then {} else AllMarks(t, kept[..|kept| - 1]) + Marks(t, kept[|kept| - 1])
  }

  predicate RepeatsAction(t: Text, past: Past, text: string) {
    t.signature(text) != "" && (t.signature(text) == past.current || t.signature(text) in past.completed)
  }

  predicate Blank(t: Text, text: string) { text == "" || t.normalize(text) == "" }

  predicate Admits(t: Text, past: Past, seen: set<string>, text: string) {
    && !Blank(t, text) && t.normalize(text) !in seen
    && (t.signature(text) == "" || (!RepeatsAction(t, past, text) && t.signature(text) !in seen))
  }

  function Select(t: Text, past: Past, candidates: seq<string>): (kept: seq<string>)
    ensures |kept| <= |candidates|
  {
    if candidates == [] then []
    else
      var kept, text := Select(t, past, candidates[..|candidates| - 1]), t.format(candidates[|candidates| - 1]);
      if Admits(t, past, AllMarks(t, kept), text) then kept + [text] else kept
  }

  function Compatible(t: Text, items: seq<string>): seq<string> {
    if items == [] then []
    else Compatible(t, items[..|items| - 1]) + if t.compatible(items[|items| - 1]) then [items[|items| - 1]] else []
  }

  /** The compatible items, all of them, in order. */
  lemma {:induction false} CompatibleInOrder(t: Text, items: seq<string>) returns (at: seq<nat>)
    ensures |at| == |Compatible(t, items)|
    ensures forall k :: 0 <= k < |at| ==>
              at[k] < |items| && Compatible(t, items)[k] == items[at[k]] && t.compatible(items[at[k]])
    ensures forall k, l :: 0 <= k < l < |at| ==> at[k] < at[l]
    ensures forall i :: 0 <= i < |items| && t.compatible(items[i]) ==> i in at
  {
    at := [];
    if items != [] {
      var n := |items| - 1;
      var front := CompatibleInOrder(t, items[..n]);
      at := front + if t.compatible(items[n]) then [n] else [];
      forall i | 0 <= i < |items| && t.compatible(items[i]) ensures i in at {
        if i < n { assert items[..n][i] == items[i] && i in front; } else { assert at[|front|] == n; }
      }
    }
  }

  function Cap(kept: seq<string>): seq<string> {
    if |kept| <= MAX_FOLLOWUP_SUGGESTIONS then kept else kept[..MAX_FOLLOWUP_SUGGESTIONS]
  }

  // ----- What is kept and what is dropped -----

  /** Two texts share a mark: a normalised text or an action. */
  ghost predicate Collide(t: Text, a: string, b: string) { Marks(t, a) * Marks(t, b) != {} }

  /** Sharing a mark: equal normalised texts, equal actions, or the text of one being the
      action of the other. */
  lemma {:induction false} CollideExactly(t: Text, a: string, b: string)
    ensures Collide(t, a, b) <==>
            || t.normalize(a) == t.normalize(b)
            || (t.signature(a) != "" && t.signature(a) == t.signature(b))
            || (t.signature(a) != "" && t.signature(a) == t.normalize(b))
            || (t.signature(b) != "" && t.signature(b) == t.normalize(a))
  {
    var common := Marks(t, a) * Marks(t, b);
    assert t.normalize(a) == t.normalize(b) ==> t.normalize(a) in common;
    assert t.signature(a) != "" && t.signature(a) == t.signature(b) ==> t.signature(a) in common;
    assert t.signature(a) != "" && t.signature(a) == t.normalize(b) ==> t.signature(a) in common;
    assert t.signature(b) != "" && t.signature(b) == t.normalize(a) ==> t.signature(b) in common;
    if Collide(t, a, b) {
      var mark :| mark in common;
    }
  }

  ghost predicate PairwiseDistinct(t: Text, kept: seq<string>) {
    forall i, j :: 0 <= i < j < |kept| ==> !Collide(t, kept[i], kept[j])
  }

  lemma {:induction false} MarksOfKept(t: Text, kept: seq<string>, mark: string)
    ensures mark in AllMarks(t, kept) <==> exists k :: 0 <= k < |kept| && mark in Marks(t, kept[k])
  {
    if kept != [] {
      var n := |kept| - 1;
      MarksOfKept(t, kept[..n], mark);
      assert forall k :: 0 <= k < n ==> kept[..n][k] == kept[k];
    }
  }

  lemma {:induction false} AdmittedCollidesWithNone(t: Text, past: Past, kept: seq<string>, text: string)
    ensures Admits(t, past, AllMarks(t, kept), text) <==>
            && !Blank(t, text) && !RepeatsAction(t, past, text)
            && forall k :: 0 <= k < |kept| ==> !Collide(t, kept[k], text)
  {
    forall mark ensures mark in AllMarks(t, kept) <==> exists k :: 0 <= k < |kept| && mark in Marks(t, kept[k]) {
      MarksOfKept(t, kept, mark);
    }
    if forall k :: 0 <= k < |kept| ==> !Collide(t, kept[k], text) {
      forall mark | mark in Marks(t, text) ensures mark !in AllMarks(t, kept) {
        forall k | 0 <= k < |kept| ensures mark !in Marks(t, kept[k]) {
          assert mark in Marks(t, kept[k]) * Marks(t, text) <==> mark in Marks(t, kept[k]);
        }
      }
    }
    if Admits(t, past, AllMarks(t, kept), text) {
      forall k | 0 <= k < |kept| ensures !Collide(t, kept[k], text) {
        forall mark | mark in Marks(t, text) ensures mark !in Marks(t, kept[k]) {
          assert mark in AllMarks(t, kept) <== mark in Marks(t, kept[k]);
        }
      }
    }
  }

  /** Kept follow-ups are pairwise distinct in text and action, none blank, none repeating
      the current or a completed action. */
  lemma {:induction false} KeptAreDistinct(t: Text, past: Past, candidates: seq<string>)
    ensures var kept := Select(t, past, candidates);
            && PairwiseDistinct(t, kept)
            && (forall i, j :: 0 <= i < j < |kept| ==> Distinct(t, kept[i], kept[j]))
            && forall k :: 0 <= k < |kept| ==> Presentable(t, past, kept[k])
  {
    KeptDoNotCollide(t, past, candidates);
    var kept := Select(t, past, candidates);
    forall i, j | 0 <= i < j < |kept| ensures Distinct(t, kept[i], kept[j]) { CollideExactly(t, kept[i], kept[j]); }
  }

  /** Different normalised texts and, where there are any, different actions. */
  ghost predicate Distinct(t: Text, a: string, b: string) {
    t.normalize(a) != t.normalize(b) && (t.signature(a) != "" ==> t.signature(a) != t.signature(b))
  }

  /** Not blank, and no repetition of the current or a completed action. */
  ghost predicate Presentable(t: Text, past: Past, text: string) {
    && text != "" && t.normalize(text) != ""
    && (t.signature(text) != "" ==> t.signature(text) != past.current && t.signature(text) !in past.completed)
  }

  lemma {:induction false} KeptDoNotCollide(t: Text, past: Past, candidates: seq<string>)
    ensures var kept := Select(t, past, candidates);
            PairwiseDistinct(t, kept) && forall k :: 0 <= k < |kept| ==> Presentable(t, past, kept[k])
  {
    if candidates != [] {
      var n := |candidates| - 1;
      KeptDoNotCollide(t, past, candidates[..n]);
      AdmittedCollidesWithNone(t, past, Select(t, past, candidates[..n]), t.format(candidates[n]));
    }
  }

  lemma {:induction false} SelectPrefix(t: Text, past: Past, candidates: seq<string>, i: nat)
    requires i <= |candidates|
    ensures Select(t, past, candidates[..i]) <= Select(t, past, candidates)
  {
    if i < |candidates| {
      SelectPrefix(t, past, candidates[..|candidates| - 1], i);
      assert candidates[..|candidates| - 1][..i] == candidates[..i];
    } else {
      assert candidates[..i] == candidates;
    }
  }

  /** The selection is greedy: candidate i is added exactly when it is neither blank nor a
      repeat and collides with nothing kept before it. */
  lemma {:induction false} CandidateFate(t: Text, past: Past, candidates: seq<string>, i: nat)
    requires i < |candidates|
    ensures var before, after := Select(t, past, candidates[..i]), Select(t, past, candidates[..i + 1]);
            var text := t.format(candidates[i]);
            if Presentable(t, past, text)
               && (forall k :: 0 <= k < |before| ==> !Collide(t, before[k], text))
            then after == before + [text] else after == before
    ensures Select(t, past, candidates[..i + 1]) <= Select(t, past, candidates)
  {
    assert candidates[..i + 1][..i] == candidates[..i];
    AdmittedCollidesWithNone(t, past, Select(t, past, candidates[..i]), t.format(candidates[i]));
    SelectPrefix(t, past, candidates, i + 1);
  }

  /** A compatible candidate missing from the selection below the cap is blank, repeats an
      action, or collides with an earlier one that is shown. */
  lemma {:induction false} DroppedForAReason(t: Text, past: Past, candidates: seq<string>, i: nat)
    requires i < |candidates| && |Select(t, past, candidates)| <= MAX_FOLLOWUP_SUGGESTIONS
    ensures var shown, text := Cap(Select(t, past, candidates)), t.format(candidates[i]);
            text in shown || !Presentable(t, past, text)
            || exists k :: 0 <= k < |shown| && Collide(t, shown[k], text)
  {
    CandidateFate(t, past, candidates, i);
    SelectPrefix(t, past, candidates, i);
    var before, all := Select(t, past, candidates[..i]), Select(t, past, candidates);
    var after := Select(t, past, candidates[..i + 1]);
    var text := t.format(candidates[i]);
    if k :| 0 <= k < |before| && Collide(t, before[k], text) {
      assert all[k] == before[k];
    } else if !Blank(t, text) && !RepeatsAction(t, past, text) {
      assert all[|before|] == after[|before|] == text;
    }
  }

  // ----- The loops of the source -----

  lemma MarksOfOneMore(t: Text, kept: seq<string>, text: string)
    ensures AllMarks(t, kept + [text]) == AllMarks(t, kept) + Marks(t, text)
  {
    assert (kept + [text])[..|kept|] == kept;
  }

  method AddCandidate(t: Text, past: Past, followups: seq<string>, seen: set<string>, candidate: string)
    returns (next: seq<string>, nextSeen: set<string>, added: bool)
    requires seen == AllMarks(t, followups)
    ensures added == Admits(t, past, seen, t.format(candidate))
    ensures next == if added then followups + [t.format(candidate)] else followups
    ensures nextSeen == AllMarks(t, next)
  {
    next, nextSeen, added := followups, seen, false;
    var text := t.format(candidate);
    var normalized := t.normalize(text);
    if text == "" || normalized == "" || normalized in seen { return; }
    var signature := t.signature(text);
    if signature != "" && (signature == past.current || signature in past.completed || signature in seen) { return; }
    nextSeen := nextSeen + {normalized};
    if signature != "" { nextSeen := nextSeen + {signature}; }
    next, added := next + [text], true;
    MarksOfOneMore(t, followups, text);
    assert nextSeen == seen + Marks(t, text);
  }

  lemma SelectOneMore(t: Text, past: Past, candidates: seq<string>, c: string)
    ensures var kept := Select(t, past, candidates);
            Select(t, past, candidates + [c]) ==
            if Admits(t, past, AllMarks(t, kept), t.format(c)) then kept + [t.format(c)] else kept
  {
    assert (candidates + [c])[..|candidates|] == candidates;
  }

  lemma SelectNext(t: Text, past: Past, candidates: seq<string>, i: nat)
    requires i < |candidates|
    ensures var kept, text := Select(t, past, candidates[..i]), t.format(candidates[i]);
            Select(t, past, candidates[..i + 1]) ==
            if Admits(t, past, AllMarks(t, kept), text) then kept + [text] else kept
  {
    assert candidates[..i + 1] == candidates[..i] + [candidates[i]];
    SelectOneMore(t, past, candidates[..i], candidates[i]);
  }

  method AddRequired(t: Text, past: Past, required: seq<string>) returns (kept: seq<string>, seen: set<string>)
    ensures kept == Select(t, past, required) && seen == AllMarks(t, kept)
  {
    kept, seen := [], {};
    var added;
    for i := 0 to |required|
      invariant kept == Select(t, past, required[..i]) && seen == AllMarks(t, kept)
    {
      SelectNext(t, past, required, i);
      kept, seen, added := AddCandidate(t, past, kept, seen, required[i]);
    }
    assert required[..|required|] == required;
  }

  lemma CompatibleOneMore(t: Text, offered: seq<string>, planned: seq<string>, i: nat)
    requires i < |planned|
    ensures var before := offered + Compatible(t, planned[..i]);
            offered + Compatible(t, planned[..i + 1]) ==
            if t.compatible(planned[i]) then before + [planned[i]] else before
  {
    assert planned[..i + 1][..i] == planned[..i] && planned[..i + 1][i] == planned[i];
    var kept := Compatible(t, planned[..i]);
    assert Compatible(t, planned[..i + 1]) == if t.compatible(planned[i]) then kept + [planned[i]] else kept;
    assert offered + (kept + [planned[i]]) == offered + kept + [planned[i]];
  }

  method AddPlanned(
    t: Text, past: Past, ghost offered: seq<string>, existing: seq<string>, marks: set<string>, planned: seq<string>)
    returns (kept: seq<string>)
    requires existing == Select(t, past, offered) && marks == AllMarks(t, existing)
    ensures kept == Select(t, past, offered + Compatible(t, planned))
  {
    var seen, added := marks, false;
    kept := existing;
    ghost var all := offered;
    assert offered + [] == offered;
    for i := 0 to |planned|
      invariant all == offered + Compatible(t, planned[..i])
      invariant kept == Select(t, past, all) && seen == AllMarks(t, kept)
    {
      CompatibleOneMore(t, offered, planned, i);
      if t.compatible(planned[i]) {
        SelectOneMore(t, past, all, planned[i]);
        kept, seen, added := AddCandidate(t, past, kept, seen, planned[i]);
        all := all + [planned[i]];
      }
    }
    assert planned[..|planned|] == planned;
  }

  /** Required candidates come before planner ones; the cap falls at the very end. */
  method EnforceRequiredBranches(t: Text, past: Past, required: seq<string>, planned: seq<string>)
    returns (suggestions: seq<string>)
    ensures suggestions == Cap(Select(t, past, required + Compatible(t, planned)))
    ensures var all := Select(t, past, required + Compatible(t, planned));
            suggestions <= all && |suggestions| == if |all| <= 5 then |all| else 5
    ensures forall i, j :: 0 <= i < j < |suggestions| ==> Distinct(t, suggestions[i], suggestions[j])
    ensures forall k :: 0 <= k < |suggestions| ==> Presentable(t, past, suggestions[k])
  {
    var existing, seen := AddRequired(t, past, required);
    var kept := AddPlanned(t, past, required, existing, seen, planned);
    KeptAreDistinct(t, past, required + Compatible(t, planned));
    suggestions := Cap(kept);
  }
}

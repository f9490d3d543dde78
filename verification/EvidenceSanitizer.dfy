/** Bounding tool evidence: a recursive rewrite that cuts depth, width, keys and strings of
    an arbitrary nested value. Both agents use it, with different limits. */
module EvidenceSanitizer {

  /** Python values: a dictionary key is given as its rendering, so rendered keys may repeat;
      Opaque is any other object, given as its rendering. */
  datatype Value =
    | Scalar(text: string)
    | Str(text: string)
    | Dict(entries: seq<(string, Value)>)
    | List(items: seq<Value>)
    | Tuple(items: seq<Value>)
    | Opaque(text: string)

  const MAX_KEY_CHARS: nat := 120
  const TRUNCATED := "[truncated]"

  /** Width and string limits. */
  datatype Limits = Limits(items: nat, chars: nat) {
    ghost predicate Valid() { chars >= |TRUNCATED| }
  }

  function Prefix(s: string, n: nat): (prefix: string)
    ensures prefix <= s && |prefix| == if |s| <= n then |s| else n
  {
    if |s| <= n then s else s[..n]
  }

  function Width<T>(xs: seq<T>, lim: Limits): (k: nat)
    ensures k <= |xs| && k <= lim.items
  {
    if |xs| <= lim.items then |xs| else lim.items
  }

  /** Setting a dictionary key: an existing key keeps its place. */
  function Put(entries: seq<(string, Value)>, key: string, v: Value): seq<(string, Value)> {
    if entries == [] then [(key, v)]
    else if entries[0].0 == key then [(key, v)] + entries[1..]
    else [entries[0]] + Put(entries[1..], key, v)
  }

  /** `room` is how many levels may still be entered. */
  function Sanitize(lim: Limits, v: Value, room: nat): Value
    decreases v, 1, 0
  {
    if room == 0 then Str(TRUNCATED)
    else match v
         case Scalar(_) => v
         case Str(s) => Str(Prefix(s, lim.chars))
         case Opaque(s) => Str(Prefix(s, lim.chars))
         case Dict(es) => Dict(SanitizeEntries(lim, v, room, Width(es, lim)))
         case List(xs) => List(SanitizeItems(lim, v, room, Width(xs, lim)))
         case Tuple(xs) => List(SanitizeItems(lim, v, room, Width(xs, lim)))
  }

  /** The first k entries, set one after the other. */
  function SanitizeEntries(lim: Limits, v: Value, room: nat, k: nat): seq<(string, Value)>
    requires v.Dict? && k <= |v.entries| && room > 0
    decreases v, 0, k
  {
    if k == 0 then []
    else
      var e := v.entries[k - 1];
      Put(SanitizeEntries(lim, v, room, k - 1), Prefix(e.0, MAX_KEY_CHARS), Sanitize(lim, e.1, room - 1))
  }

  function SanitizeItems(lim: Limits, v: Value, room: nat, k: nat): (items: seq<Value>)
    requires (v.List? || v.Tuple?) && k <= |v.items| && room > 0
    ensures |items| == k
    decreases v, 0, k
  {
    if k == 0 then []
    else SanitizeItems(lim, v, room, k - 1) + [Sanitize(lim, v.items[k - 1], room - 1)]
  }

  // ----- The bound -----

  ghost predicate DistinctKeys(entries: seq<(string, Value)>) {
    forall i, j :: 0 <= i < j < |entries| ==> entries[i].0 != entries[j].0
  }

  /** Within the depth, width, key and string limits, and of JSON shape. */
  ghost predicate Bounded(lim: Limits, v: Value, room: nat)
    decreases v
  {
    if room == 0 then v == Str(TRUNCATED)
    else match v
         case Scalar(_) => true
         case Str(s) => |s| <= lim.chars
         case Dict(es) =>
           && |es| <= lim.items && DistinctKeys(es)
           && forall i :: 0 <= i < |es| ==> |es[i].0| <= 120 && Bounded(lim, es[i].1, room - 1)
         case List(xs) => |xs| <= lim.items && forall i :: 0 <= i < |xs| ==> Bounded(lim, xs[i], room - 1)
         case _ => false
  }

  lemma {:induction false} PutKeepsKeys(entries: seq<(string, Value)>, key: string, v: Value)
    requires DistinctKeys(entries)
    ensures var r := Put(entries, key, v);
            && DistinctKeys(r) && |r| <= |entries| + 1
            && (forall e :: e in r ==> e == (key, v) || (e in entries && e.0 != key))
            && (forall e :: e in entries && e.0 != key ==> e in r)
            && (key, v) in r
  {
    if entries != [] {
      var rest := entries[1..];
      assert forall e :: e in entries <==> e == entries[0] || e in rest;
      assert forall k :: 0 <= k < |rest| ==> rest[k] == entries[k + 1];
      if entries[0].0 == key {
        assert forall e :: e in rest ==> e.0 != key;
      } else {
        PutKeepsKeys(rest, key, v);
        var r := Put(rest, key, v);
        assert forall k :: 0 <= k < |r| ==> r[k] in r && r[k].0 != entries[0].0;
      }
    }
  }

  ghost predicate EntriesBounded(lim: Limits, es: seq<(string, Value)>, room: nat) {
    DistinctKeys(es) && forall e :: e in es ==> |e.0| <= MAX_KEY_CHARS && Bounded(lim, e.1, room)
  }

  lemma PutKeepsBound(lim: Limits, es: seq<(string, Value)>, room: nat, key: string, v: Value)
    requires EntriesBounded(lim, es, room) && |key| <= MAX_KEY_CHARS && Bounded(lim, v, room)
    ensures EntriesBounded(lim, Put(es, key, v), room) && |Put(es, key, v)| <= |es| + 1
  {
    PutKeepsKeys(es, key, v);
    var r := Put(es, key, v);
    forall e | e in r ensures |e.0| <= MAX_KEY_CHARS && Bounded(lim, e.1, room) {
      assert e == (key, v) || e in es;
    }
  }

  /** The output is always within the bound, also when truncated keys collide. */
  lemma {:induction false} SanitizedIsBounded(lim: Limits, v: Value, room: nat)
    requires lim.Valid()
    ensures Bounded(lim, Sanitize(lim, v, room), room)
    decreases v, 1, 0
  {
    if room > 0 {
      match v
      case Dict(es) => SanitizedEntriesAreBounded(lim, v, room, Width(es, lim));
      case List(xs) => SanitizedItemsAreBounded(lim, v, room, Width(xs, lim));
      case Tuple(xs) => SanitizedItemsAreBounded(lim, v, room, Width(xs, lim));
      case _ =>
    }
  }

  lemma {:induction false} SanitizedEntriesAreBounded(lim: Limits, v: Value, room: nat, k: nat)
    requires lim.Valid() && v.Dict? && k <= |v.entries| && room > 0
    ensures var es := SanitizeEntries(lim, v, room, k); |es| <= k && EntriesBounded(lim, es, room - 1)
    decreases v, 0, k
  {
    if k > 0 {
      SanitizedEntriesAreBounded(lim, v, room, k - 1);
      SanitizedIsBounded(lim, v.entries[k - 1].1, room - 1);
      EntryKeepsBound(lim, v, room, k);
    }
  }

  lemma EntryKeepsBound(lim: Limits, v: Value, room: nat, k: nat)
    requires v.Dict? && 0 < k <= |v.entries| && room > 0
    ensures var before, after := SanitizeEntries(lim, v, room, k - 1), SanitizeEntries(lim, v, room, k);
            EntriesBounded(lim, before, room - 1) && Bounded(lim, Sanitize(lim, v.entries[k - 1].1, room - 1), room - 1)
            ==> EntriesBounded(lim, after, room - 1) && |after| <= |before| + 1
  {
    var before, w := SanitizeEntries(lim, v, room, k - 1), Sanitize(lim, v.entries[k - 1].1, room - 1);
    EntriesStep(lim, v, room, k);
    if EntriesBounded(lim, before, room - 1) && Bounded(lim, w, room - 1) {
      PutKeepsBound(lim, before, room - 1, Prefix(v.entries[k - 1].0, MAX_KEY_CHARS), w);
    }
  }

  lemma EntriesStep(lim: Limits, v: Value, room: nat, k: nat)
    requires v.Dict? && 0 < k <= |v.entries| && room > 0
    ensures var e := v.entries[k - 1];
            SanitizeEntries(lim, v, room, k) ==
            Put(SanitizeEntries(lim, v, room, k - 1), Prefix(e.0, MAX_KEY_CHARS), Sanitize(lim, e.1, room - 1))
  {}

  lemma {:induction false} SanitizedItemsAreBounded(lim: Limits, v: Value, room: nat, k: nat)
    requires lim.Valid() && (v.List? || v.Tuple?) && k <= |v.items| && room > 0
    ensures forall i :: 0 <= i < k ==> Bounded(lim, SanitizeItems(lim, v, room, k)[i], room - 1)
    decreases v, 0, k
  {
    if k > 0 {
      SanitizedItemsAreBounded(lim, v, room, k - 1);
      SanitizedIsBounded(lim, v.items[k - 1], room - 1);
    }
  }

  // ----- A bounded value is left alone -----

  lemma {:induction false} PutNewKey(entries: seq<(string, Value)>, key: string, v: Value)
    requires forall e :: e in entries ==> e.0 != key
    ensures Put(entries, key, v) == entries + [(key, v)]
  {
    if entries != [] {
      assert entries[0] in entries;
      PutNewKey(entries[1..], key, v);
    }
  }

  lemma {:induction false} BoundedIsUnchanged(lim: Limits, v: Value, room: nat)
    requires Bounded(lim, v, room)
    ensures Sanitize(lim, v, room) == v
    decreases v, 1, 0
  {
    if room > 0 {
      match v
      case Dict(es) =>
        BoundedEntriesAreUnchanged(lim, v, room, |es|);
        assert es[..|es|] == es;
      case List(xs) =>
        BoundedItemsAreUnchanged(lim, v, room, |xs|);
        assert xs[..|xs|] == xs;
      case _ =>
    }
  }

  lemma {:induction false} BoundedEntriesAreUnchanged(lim: Limits, v: Value, room: nat, k: nat)
    requires v.Dict? && Bounded(lim, v, room) && k <= |v.entries| && room > 0
    ensures SanitizeEntries(lim, v, room, k) == v.entries[..k]
    decreases v, 0, k
  {
    if k > 0 {
      var e := v.entries[k - 1];
      BoundedEntriesAreUnchanged(lim, v, room, k - 1);
      BoundedIsUnchanged(lim, e.1, room - 1);
      PutNewKey(v.entries[..k - 1], e.0, e.1);
      assert v.entries[..k] == v.entries[..k - 1] + [e];
    }
  }

  lemma {:induction false} BoundedItemsAreUnchanged(lim: Limits, v: Value, room: nat, k: nat)
    requires v.List? && Bounded(lim, v, room) && k <= |v.items| && room > 0
    ensures SanitizeItems(lim, v, room, k) == v.items[..k]
    decreases v, 0, k
  {
    if k > 0 {
      BoundedItemsAreUnchanged(lim, v, room, k - 1);
      BoundedIsUnchanged(lim, v.items[k - 1], room - 1);
      assert v.items[..k] == v.items[..k - 1] + [v.items[k - 1]];
    }
  }

  /** The bounded values are exactly the fixed points, and every output is one: sanitising
      twice is sanitising once. */
  lemma {:induction false} SanitizeIsIdempotent(lim: Limits, v: Value, room: nat)
    requires lim.Valid()
    ensures Sanitize(lim, Sanitize(lim, v, room), room) == Sanitize(lim, v, room)
    ensures Bounded(lim, v, room) <==> Sanitize(lim, v, room) == v
  {
    SanitizedIsBounded(lim, v, room);
    BoundedIsUnchanged(lim, Sanitize(lim, v, room), room);
    if Bounded(lim, v, room) { BoundedIsUnchanged(lim, v, room); }
  }

  // ----- Nothing within the limits is invented or lost -----

  /** A text, or the rendering of an opaque object, is cut to its beginning; a list or a tuple
      becomes the list of its first items, each sanitised one level down. */
  lemma {:induction false} SanitizedFollowsInput(lim: Limits, v: Value, room: nat)
    requires room > 0
    ensures match v
            case Scalar(_) => Sanitize(lim, v, room) == v
            case Str(s) => BeginningOf(Sanitize(lim, v, room), s, lim.chars)
            case Opaque(s) => BeginningOf(Sanitize(lim, v, room), s, lim.chars)
            case Dict(_) => Sanitize(lim, v, room).Dict?
            case List(xs) => FirstItemsOf(lim, Sanitize(lim, v, room), xs, room)
            case Tuple(xs) => FirstItemsOf(lim, Sanitize(lim, v, room), xs, room)
    ensures Sanitize(lim, v, 0) == Str("[truncated]")
  {
    match v
    case List(xs) => ItemsAreSanitized(lim, v, room, Width(xs, lim));
    case Tuple(xs) => ItemsAreSanitized(lim, v, room, Width(xs, lim));
    case _ =>
  }

  ghost predicate BeginningOf(out: Value, s: string, chars: nat) {
    out.Str? && out.text <= s && |out.text| == if |s| <= chars then |s| else chars
  }

  ghost predicate FirstItemsOf(lim: Limits, out: Value, xs: seq<Value>, room: nat)
    requires room > 0
  {
    && out.List? && |out.items| == (if |xs| <= lim.items then |xs| else lim.items)
    && forall i :: 0 <= i < |out.items| ==> out.items[i] == Sanitize(lim, xs[i], room - 1)
  }

  lemma {:induction false} ItemsAreSanitized(lim: Limits, v: Value, room: nat, k: nat)
    requires (v.List? || v.Tuple?) && k <= |v.items| && room > 0
    ensures forall i :: 0 <= i < k ==> SanitizeItems(lim, v, room, k)[i] == Sanitize(lim, v.items[i], room - 1)
    decreases k
  {
    if k > 0 { ItemsAreSanitized(lim, v, room, k - 1); }
  }

  function KeysOf(entries: seq<(string, Value)>): (keys: seq<string>)
    ensures |keys| == |entries| && forall i :: 0 <= i < |entries| ==> keys[i] == entries[i].0
  {
    seq(|entries|, i requires 0 <= i < |entries| => entries[i].0)
  }

  lemma KeysCons(e: (string, Value), rest: seq<(string, Value)>)
    ensures KeysOf([e] + rest) == [e.0] + KeysOf(rest)
  {}

  lemma {:induction false} PutKeepsOrder(entries: seq<(string, Value)>, key: string, v: Value)
    ensures KeysOf(Put(entries, key, v)) == if key in KeysOf(entries) then KeysOf(entries) else KeysOf(entries) + [key]
  {
    if entries != [] {
      var first, rest := entries[0], entries[1..];
      assert entries == [first] + rest;
      KeysCons(first, rest);
      if first.0 == key {
        KeysCons((key, v), rest);
      } else {
        PutKeepsOrder(rest, key, v);
        KeysCons(first, Put(rest, key, v));
        HeadedKeys(first.0, KeysOf(rest), key);
      }
    }
  }

  lemma HeadedKeys(x: string, keys: seq<string>, key: string)
    requires x != key
    ensures key in [x] + keys <==> key in keys
    ensures [x] + (keys + [key]) == [x] + keys + [key]
  {}

  /** One more entry of a dictionary appends its cut key, unless an earlier entry has it: keys
      stand in the order in which they first appear. */
  lemma {:induction false} KeysStandInOrder(lim: Limits, v: Value, room: nat, k: nat)
    requires v.Dict? && 0 < k <= |v.entries| && room > 0
    ensures var before := KeysOf(SanitizeEntries(lim, v, room, k - 1));
            var key := Prefix(v.entries[k - 1].0, MAX_KEY_CHARS);
            KeysOf(SanitizeEntries(lim, v, room, k)) == if key in before then before else before + [key]
  {
    var e := v.entries[k - 1];
    PutKeepsOrder(SanitizeEntries(lim, v, room, k - 1), Prefix(e.0, MAX_KEY_CHARS), Sanitize(lim, e.1, room - 1));
  }

  /** The last of the first k entries whose truncated key is `key`, or -1. */
  function LastWithKey(es: seq<(string, Value)>, k: nat, key: string): (i: int)
    requires k <= |es|
    ensures -1 <= i < k
    ensures i >= 0 ==> Prefix(es[i].0, MAX_KEY_CHARS) == key
    ensures forall j :: i < j < k ==> Prefix(es[j].0, MAX_KEY_CHARS) != key
  {
    if k == 0 then -1 else if Prefix(es[k - 1].0, MAX_KEY_CHARS) == key then k - 1 else LastWithKey(es, k - 1, key)
  }

  /** Under each truncated key the output holds the sanitised value of the last entry of
      that key within the width, and it has no other entries. */
  lemma {:induction false} CollidingKeysKeepTheLast(lim: Limits, v: Value, room: nat, k: nat, key: string, w: Value)
    requires lim.Valid() && v.Dict? && k <= |v.entries| && room > 0
    ensures (key, w) in SanitizeEntries(lim, v, room, k) <==>
            var i := LastWithKey(v.entries, k, key); i >= 0 && w == Sanitize(lim, v.entries[i].1, room - 1)
    decreases k
  {
    if k > 0 {
      var e, before := v.entries[k - 1], SanitizeEntries(lim, v, room, k - 1);
      CollidingKeysKeepTheLast(lim, v, room, k - 1, key, w);
      SanitizedEntriesAreBounded(lim, v, room, k - 1);
      PutMembers(before, Prefix(e.0, MAX_KEY_CHARS), Sanitize(lim, e.1, room - 1), (key, w));
    }
  }

  lemma PutMembers(entries: seq<(string, Value)>, key: string, v: Value, e: (string, Value))
    requires DistinctKeys(entries)
    ensures e in Put(entries, key, v) <==> if e.0 == key then e.1 == v else e in entries
  {
    PutKeepsKeys(entries, key, v);
  }
}

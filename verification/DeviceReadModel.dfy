/** The read model as the source builds it: device objects that rows update in place, and
    a first-wins alias index over them. Every method is proved against DeviceJoin. */
module DeviceReadModel {
  import opened Options
  import opened DeviceRecord
  import opened StableSort
  import opened DeviceJoin
  import opened DeviceAccount

  /** A child entity of an inventory node; `aliases` enumerates its alias set. */
  datatype Child = Child(identity: Identity, header: Header, aliases: seq<string>)

  function Born(children: seq<Child>): (entries: seq<(Identity, Header)>)
    ensures |entries| == |children|
  {
    seq(|children|, k requires 0 <= k < |children| => (children[k].identity, children[k].header))
  }

  function ObjectIds(ds: seq<CompanyDevice>): (ids: seq<Identity>)
    ensures |ids| == |ds| && forall i :: 0 <= i < |ds| ==> ids[i] == ds[i].identity
  {
    seq(|ds|, i requires 0 <= i < |ds| => ds[i].identity)
  }

  lemma {:induction false} FirstHolderOfMore(ids: seq<Identity>, id: Identity, a: string)
    ensures FirstHolder(ids + [id], a) ==
            if FirstHolder(ids, a) < |ids| then FirstHolder(ids, a) else if a in id.aliases then |ids| else |ids| + 1
  {
    if ids != [] {
      assert (ids + [id])[1..] == ids[1..] + [id];
      FirstHolderOfMore(ids[1..], id, a);
    } else {
      assert (ids + [id])[1..] == [];
    }
  }

  /** One index entry: the first device in the list that has the alias. */
  ghost predicate Indexed(ds: seq<CompanyDevice>, index: map<string, CompanyDevice>, a: string) {
    var h := FirstHolder(ObjectIds(ds), a);
    if h < |ds| then a in index && index[a] == ds[h] else a !in index
  }

  ghost predicate FirstWins(ds: seq<CompanyDevice>, index: map<string, CompanyDevice>) {
    forall a :: Indexed(ds, index, a)
  }

  /** dict.setdefault over the aliases of a new device. */
  method Register(index: map<string, CompanyDevice>, aliases: seq<string>, d: CompanyDevice)
    returns (next: map<string, CompanyDevice>)
    ensures forall a :: a in next <==> a in index || a in aliases
    ensures forall a :: a in next ==> next[a] == if a in index then index[a] else d
  {
    next := index;
    for k := 0 to |aliases|
      invariant forall a :: a in next <==> a in index || a in aliases[..k]
      invariant forall a :: a in next ==> next[a] == if a in index then index[a] else d
    {
      if aliases[k] !in next { next := next[aliases[k] := d]; }
    }
  }

  lemma {:induction false} RegisterKeepsFirstWins(
    ds: seq<CompanyDevice>, index: map<string, CompanyDevice>, d: CompanyDevice, next: map<string, CompanyDevice>)
    requires FirstWins(ds, index)
    requires forall a :: a in next <==> a in index || a in d.identity.aliases
    requires forall a :: a in next ==> next[a] == if a in index then index[a] else d
    ensures FirstWins(ds + [d], next)
  {
    forall a ensures Indexed(ds + [d], next, a) {
      assert Indexed(ds, index, a);
      assert ObjectIds(ds + [d]) == ObjectIds(ds) + [d.identity];
      FirstHolderOfMore(ObjectIds(ds), d.identity, a);
    }
  }

  function Lookup<V>(m: map<string, V>, key: string): Option<V> {
    if key in m then Some(m[key]) else None
  }

  ghost predicate Dictionaries(cs: seq<Container>, byId: map<string, Container>, byName: map<string, Container>) {
    && (forall k :: Lookup(byId, k) == LastById(cs, k))
    && (forall k :: Lookup(byName, k) == LastByName(cs, k))
  }

  method IndexContainers(cs: seq<Container>) returns (byId: map<string, Container>, byName: map<string, Container>)
    ensures Dictionaries(cs, byId, byName)
  {
    byId, byName := map[], map[];
    for i := 0 to |cs|
      invariant Dictionaries(cs[..i], byId, byName)
    {
      assert cs[..i + 1][..i] == cs[..i];
      byId := byId[cs[i].id := cs[i]];
      if cs[i].name != "" { byName := byName[cs[i].name := cs[i]]; }
    }
    assert cs[..|cs|] == cs;
  }

  class ReadModel {
    const src: Sources
    const containersById: map<string, Container>
    const containersByName: map<string, Container>
    var devices: seq<CompanyDevice>
    var aliasIndex: map<string, CompanyDevice>
    var counts: Counts
    ghost var views: seq<DeviceView>

    ghost function Objects(): set<CompanyDevice>
      reads this`devices
    {
      set d | d in devices
    }

    /** The index maps every alias to the first device in the list that has it; `views`
        is what the device objects hold. */
    ghost predicate Valid()
      reads this`devices, this`aliasIndex, this`views, Objects()
    {
      && |views| == |devices|
      && (forall i :: 0 <= i < |devices| ==> devices[i].slot == i && views[i] == devices[i].View())
      && FirstWins(devices, aliasIndex)
    }

    /** The container dictionaries, which never change, answer as the container list does. */
    ghost predicate Ready() {
      Dictionaries(src.containers, containersById, containersByName)
    }

    ghost function State(): JoinState
      reads this`views, this`counts
    {
      JoinState(views, counts)
    }

    constructor (src: Sources)
      ensures Ready() && Valid() && devices == [] && State() == Inventory([])
      ensures this.src == src
    {
      this.src := src;
      var byId, byName := IndexContainers(src.containers);
      containersById, containersByName := byId, byName;
      devices, aliasIndex, views := [], map[], [];
      counts := Counts(0, 0, 0, 0, 0);
    }

    /** Appends a device and registers its aliases, never displacing an earlier holder. */
    method AddDevice(identity: Identity, header: Header, aliases: seq<string>) returns (d: CompanyDevice)
      requires Valid() && identity.aliases == set a | a in aliases
      modifies this`devices, this`aliasIndex, this`views
      ensures Valid() && fresh(d) && d.identity == identity
      ensures devices == old(devices) + [d] && Objects() == old(Objects()) + {d}
      ensures views == old(views) + [NewDevice(identity, header)]
    {
      d := new CompanyDevice(identity, header, |devices|);
      var next := Register(aliasIndex, aliases, d);
      RegisterKeepsFirstWins(devices, aliasIndex, d, next);
      devices, aliasIndex := devices + [d], next;
      views := views + [d.View()];
    }

    method ResolveDevice(aliases: seq<string>) returns (d: CompanyDevice?, ghost at: nat)
      requires Valid()
      ensures at == Resolve(Ids(views), aliases)
      ensures var i := Resolve(Ids(views), aliases); if i < |devices| then d == devices[i] else d == null
    {
      assert ObjectIds(devices) == Ids(views);
      for k := 0 to |aliases|
        invariant Resolve(ObjectIds(devices), aliases) == Resolve(ObjectIds(devices), aliases[k..])
      {
        assert Indexed(devices, aliasIndex, aliases[k]);
        if aliases[k] in aliasIndex {
          at := FirstHolder(ObjectIds(devices), aliases[k]);
          return aliasIndex[aliases[k]], at;
        }
        assert aliases[k..][1..] == aliases[k + 1..];
      }
      d, at := null, |devices|;
    }

    method FindContainer(row: ContentRow) returns (c: Option<Container>)
      requires Ready()
      ensures c == ContainerOf(src.containers, row)
    {
      var reference := Or(row.containerReference, row.header.parentContainer);
      c := Lookup(containersById, reference);
      assert c == LastById(src.containers, reference);
      if c == None {
        c := Lookup(containersByName, reference);
        assert c == LastByName(src.containers, reference);
      }
    }

    /** The device a telemetry row resolves to, by its own aliases or its container's. */
    method FindOwner(row: ContentRow) returns (d: CompanyDevice?, ghost at: nat)
      requires Ready() && Valid() && row.payload.Telemetry?
      ensures match Place(src, Ids(views), row) case Existing(i) => d == devices[i] case _ => d == null
      ensures Place(src, Ids(views), row) ==
              if at < |devices| then Existing(at)
              else if row.payload.deviceId != "" || row.payload.deviceName != "" then Created
              else Nowhere
    {
      d, at := ResolveDevice(row.payload.aliases);
      var c := FindContainer(row);
      if d == null && c.Some? {
        d, at := ResolveDevice(c.value.ownerAliases);
      }
    }

    /** Attributing a row changes one device object and nothing else. */
    method Attribute(d: CompanyDevice, ghost at: nat, e: Entry)
      requires Valid() && at < |devices| && d == devices[at]
      modifies d, this`views
      ensures Valid() && views == old(views)[at := Absorb(old(views)[at], e)]
    {
      d.AbsorbRow(e);
      views := views[at := d.View()];
    }

    /** Creates the device that a row names, and attributes the row to it. */
    method FoundDevice(row: ContentRow, e: Entry)
      requires Valid() && row.payload.Telemetry?
      modifies this`devices, this`aliasIndex, this`views
      ensures Valid() && fresh(Objects() - old(Objects()))
      ensures views == old(views) + [Absorb(NewDevice(TelemetryOnlyIdentity(row), TelemetryOnlyHeader(row)), e)]
    {
      var d := AddDevice(TelemetryOnlyIdentity(row), TelemetryOnlyHeader(row), row.payload.aliases);
      Attribute(d, |devices| - 1, e);
    }

    method PlaceRow(row: ContentRow) returns (missed: nat)
      requires Ready() && Valid() && row.payload.Telemetry?
      modifies this`devices, this`aliasIndex, this`views, Objects()
      ensures Valid() && fresh(Objects() - old(Objects()))
      ensures (views, missed) == Deliver(src, old(views), row)
    {
      var d, at := FindOwner(row);
      missed := 0;
      var reading := src.decode(if d == null then None else Some(d.identity), row);
      var e := Entry(row.header, reading.status, reading.metrics);
      if d != null {
        assert views[at].identity == d.identity;
        Attribute(d, at, e);
      } else if row.payload.deviceId != "" || row.payload.deviceName != "" {
        FoundDevice(row, e);
      } else if reading.metrics != [] {
        missed := 1;
      }
    }

    method AddContentInstance(row: ContentRow)
      requires Ready() && Valid()
      modifies this`devices, this`aliasIndex, this`views, this`counts, Objects()
      ensures Valid() && fresh(Objects() - old(Objects()))
      ensures State() == ProcessRow(src, old(State()), row)
    {
      match row.payload
      case NotAnObject => counts := counts.(invalid := counts.invalid + 1);
      case Command => counts := counts.(parseable := counts.parseable + 1, commands := counts.commands + 1);
      case Telemetry(_, _, _) =>
        counts := counts.(parseable := counts.parseable + 1, telemetry := counts.telemetry + 1);
        var missed := PlaceRow(row);
        counts := counts.(unmapped := counts.unmapped + missed);
    }

    method LoadInventory(children: seq<Child>)
      requires Valid() && devices == [] && State() == Inventory([])
      requires forall k :: 0 <= k < |children| ==> children[k].identity.aliases == set a | a in children[k].aliases
      modifies this`devices, this`aliasIndex, this`views
      ensures Valid() && fresh(Objects())
      ensures State() == Inventory(Born(children))
    {
      for k := 0 to |children|
        invariant Valid() && fresh(Objects())
        invariant |views| == k
        invariant forall i :: 0 <= i < k ==> views[i] == NewDevice(children[i].identity, children[i].header)
      {
        var d := AddDevice(children[k].identity, children[k].header, children[k].aliases);
      }
    }

    method AddContentInstances(rows: seq<ContentRow>)
      requires Ready() && Valid()
      modifies this`devices, this`aliasIndex, this`views, this`counts, Objects()
      ensures Valid() && fresh(Objects() - old(Objects()))
      ensures State() == ProcessRows(src, old(State()), rows)
    {
      for k := 0 to |rows|
        invariant Valid() && fresh(Objects() - old(Objects()))
        invariant State() == ProcessRows(src, old(State()), rows[..k])
      {
        AddContentInstance(rows[k]);
        assert rows[..k + 1][..k] == rows[..k];
      }
      assert rows[..|rows|] == rows;
    }

    method CountOnce(d: CompanyDevice, ghost at: nat)
      requires Valid() && at < |devices| && d == devices[at]
      modifies d, this`views
      ensures Valid() && views == old(views)[at := WithHits(old(views)[at], 1)]
      ensures Ids(views) == Ids(old(views))
    {
      d.AddRule();
      views := views[at := d.View()];
    }

    /** Counts one target, unless its device is already matched; `hits` are the matched positions. */
    method CountTarget(target: string, matched: set<CompanyDevice>, ghost hits: set<nat>)
      returns (next: set<CompanyDevice>, ghost nextHits: set<nat>)
      requires Valid() && Matches(matched, hits)
      modifies this`views, Objects()
      ensures Valid() && Matches(next, nextHits) && Ids(views) == Ids(old(views))
      ensures var h := FirstHolder(Ids(old(views)), target);
              nextHits == hits + if target != "" && h < |views| then {h} else {}
      ensures CountedOnce(old(views), views, hits, nextHits)
    {
      next, nextHits := matched, hits;
      if target != "" {
        var d, at := ResolveDevice([target]);
        if d != null { next, nextHits := CountMatch(d, at, matched, hits); }
      }
    }

    method CountMatch(d: CompanyDevice, ghost at: nat, matched: set<CompanyDevice>, ghost hits: set<nat>)
      returns (next: set<CompanyDevice>, ghost nextHits: set<nat>)
      requires Valid() && Matches(matched, hits) && at < |devices| && d == devices[at]
      modifies d, this`views
      ensures Valid() && Matches(next, nextHits) && Ids(views) == Ids(old(views))
      ensures nextHits == hits + {at} && CountedOnce(old(views), views, hits, nextHits)
    {
      next, nextHits := matched, hits + {at};
      if d !in matched {
        CountOnce(d, at);
        next := matched + {d};
      }
    }

    ghost predicate Matches(matched: set<CompanyDevice>, hits: set<nat>)
      reads this`devices
    {
      forall i :: 0 <= i < |devices| ==> (devices[i] in matched <==> i in hits)
    }

    /** Counts a rule once on every device it names, however often it names it. */
    method CountRule(targets: seq<string>)
      requires Valid()
      modifies this`views, Objects()
      ensures Valid() && |views| == |old(views)|
      ensures forall i :: 0 <= i < |views| ==>
                views[i] == WithHits(old(views)[i], if NamedBy(Ids(old(views)), targets, i) then 1 else 0)
    {
      ghost var ids := Ids(views);
      var matched: set<CompanyDevice> := {};
      ghost var hits: set<nat> := {};
      for k := 0 to |targets|
        invariant Valid() && Ids(views) == ids && Matches(matched, hits)
        invariant forall i: nat :: i < |ids| ==> (i in hits <==> NamedBy(ids, targets[..k], i))
        invariant |views| == |old(views)|
        invariant forall i :: 0 <= i < |views| ==> views[i] == WithHits(old(views)[i], if i in hits then 1 else 0)
      {
        NamedByStep(ids, targets[..k], targets[k]);
        assert targets[..k + 1] == targets[..k] + [targets[k]];
        matched, hits := CountTarget(targets[k], matched, hits);
      }
      assert targets[..|targets|] == targets;
    }

    method CountRules(rules: seq<seq<string>>)
      requires Valid()
      modifies this`views, Objects()
      ensures Valid() && |views| == |old(views)|
      ensures forall i :: 0 <= i < |views| ==>
                views[i] == WithHits(old(views)[i], RuleCount(Ids(old(views)), rules, i))
    {
      ghost var ids := Ids(views);
      for k := 0 to |rules|
        invariant Valid() && |views| == |old(views)|
        invariant forall i :: 0 <= i < |views| ==> views[i] == WithHits(old(views)[i], RuleCount(ids, rules[..k], i))
      {
        assert Ids(views) == ids;
        CountRule(rules[k]);
        assert rules[..k + 1][..k] == rules[..k];
      }
      assert rules[..|rules|] == rules;
    }

    method SortHistories()
      requires Valid()
      modifies this`views, Objects()
      ensures Valid() && |views| == |old(views)|
      ensures forall i :: 0 <= i < |views| ==> views[i] == Finished(old(views)[i], 0)
    {
      for k := 0 to |devices|
        invariant Valid() && |views| == |old(views)|
        invariant forall i :: 0 <= i < |views| ==>
                    views[i] == if i < k then Finished(old(views)[i], 0) else old(views)[i]
      {
        devices[k].ReplaceHistory(SortByStamp(devices[k].history));
        views := views[k := devices[k].View()];
      }
    }

    /** The history lookup scans the list, and always finds the device that the index holds. */
    method History(target: string, limit: int) returns (found: bool, items: seq<HistoryItem>)
      requires Valid()
      ensures found <==> target in aliasIndex
      ensures found ==> items == LastItems(aliasIndex[target].history, limit)
      ensures !found ==> items == []
    {
      ghost var ids := ObjectIds(devices);
      assert Indexed(devices, aliasIndex, target);
      for k := 0 to |devices|
        invariant FirstHolder(ids, target) >= k
      {
        if target in devices[k].identity.aliases {
          assert target in ids[k].aliases && FirstHolder(ids, target) == k;
          assert aliasIndex[target] == devices[k];
          return true, LastItems(devices[k].history, limit);
        }
      }
      found, items := false, [];
    }
  }

  /** Exactly the devices that are hit anew gained one rule. */
  ghost predicate CountedOnce(before: seq<DeviceView>, after: seq<DeviceView>, hits: set<nat>, nextHits: set<nat>) {
    && |after| == |before|
    && forall i :: 0 <= i < |after| ==> after[i] == WithHits(before[i], if i in nextHits && i !in hits then 1 else 0)
  }

  /** history[-safe_limit:] with safe_limit clamped to 1..100: the newest items, in order. */
  function LastItems(history: seq<HistoryItem>, limit: int): (items: seq<HistoryItem>)
    ensures |items| <= |history| && items == history[|history| - |items|..]
    ensures limit <= 1 ==> |items| == if history == [] then 0 else 1
    ensures 1 <= limit <= 100 ==> |items| == if |history| < limit then |history| else limit
    ensures limit >= 100 ==> |items| == if |history| < 100 then |history| else 100
  {
    var safe := if limit < 1 then 1 else if limit > 100 then 100 else limit;
    if |history| <= safe then history else history[|history| - safe..]
  }

  /** Device i of a loaded model: which it is, and everything it shows, in terms of the
      inventory, of rows that share an alias with it, and of the rules that name it. */
  ghost predicate Loaded(
    src: Sources, children: seq<Child>, rows: seq<ContentRow>, rules: seq<seq<string>>, ids: seq<Identity>,
    i: nat, r: DeviceView)
  {
    && r.ruleCount == |Naming(ids, rules, i)|
    && (i < |children| ==> r.identity == children[i].identity)
    && exists h0, at :: LoadedFrom(src, children, rows, i, r, h0, at)
  }

  ghost predicate LoadedFrom(
    src: Sources, children: seq<Child>, rows: seq<ContentRow>, i: nat, r: DeviceView, h0: Header, at: seq<nat>)
  {
    DeviceAccounted(src, rows, |children| <= i, h0, at, r) && (i < |children| ==> h0 == children[i].header)
  }

  lemma FinishedIsLoaded(
    src: Sources, children: seq<Child>, rows: seq<ContentRow>, rules: seq<seq<string>>, ids: seq<Identity>, i: nat)
    requires i < |ProcessRows(src, Inventory(Born(children)), rows).devices|
    ensures Loaded(src, children, rows, rules, ids, i,
                   Finished(ProcessRows(src, Inventory(Born(children)), rows).devices[i], RuleCount(ids, rules, i)))
  {
    RuleCountIsNaming(ids, rules, i);
    var r := Finished(ProcessRows(src, Inventory(Born(children)), rows).devices[i], RuleCount(ids, rules, i));
    var h0, at := FinishedDevice(src, Born(children), rows, i, RuleCount(ids, rules, i));
    assert LoadedFrom(src, children, rows, i, r, h0, at);
  }

  /** The whole load: counters and devices are those of the fold, every device is accounted
      for by the rows themselves, and the index still agrees with the list. */
  method LoadReadModel(src: Sources, children: seq<Child>, rows: seq<ContentRow>, rules: seq<seq<string>>)
    returns (model: ReadModel)
    requires forall k :: 0 <= k < |children| ==> children[k].identity.aliases == set a | a in children[k].aliases
    ensures fresh(model) && model.Valid()
    ensures var joined := ProcessRows(src, Inventory(Born(children)), rows);
            && model.counts == joined.counts && |model.views| == |joined.devices|
            && forall i :: 0 <= i < |joined.devices| ==>
                 model.views[i] == Finished(joined.devices[i], RuleCount(Ids(joined.devices), rules, i))
    ensures forall i :: 0 <= i < |model.views| ==>
              Loaded(src, children, rows, rules, Ids(model.views), i, model.views[i])
  {
    model := new ReadModel(src);
    model.LoadInventory(children);
    model.AddContentInstances(rows);
    ghost var joined := model.views;
    model.CountRules(rules);
    model.SortHistories();
    forall i | 0 <= i < |model.views|
      ensures Loaded(src, children, rows, rules, Ids(joined), i, model.views[i])
    {
      FinishedIsLoaded(src, children, rows, rules, Ids(joined), i);
    }
    assert Ids(model.views) == Ids(joined);
  }
}

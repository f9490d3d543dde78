/** What the finished read model owes to the rows: over whole runs, each device, its history
    and every counter in terms of the content instances themselves. */
module DeviceAccount {
  import opened Options
  import opened MetricMerge
  import opened DeviceRecord
  import opened StableSort
  import opened DeviceJoin

  // ----- Lookups -----

  /** The container that a row names: by its parent container, or without one by its `pi`;
      an id wins over a name, and the last container of an id or name over the others. */
  lemma {:induction false} ContainerExactly(cs: seq<Container>, row: ContentRow)
    ensures var key := if row.containerReference != "" then row.containerReference else row.header.parentContainer;
            match ContainerOf(cs, row)
            case Some(c) =>
              exists i :: && 0 <= i < |cs| && cs[i] == c
                          && if cs[i].id == key then forall j :: i < j < |cs| ==> cs[j].id != key
                             else && cs[i].name == key != "" && (forall j :: 0 <= j < |cs| ==> cs[j].id != key)
                                  && forall j :: i < j < |cs| ==> cs[j].name != key
            case None =>
              forall j :: 0 <= j < |cs| ==> cs[j].id != key && (key != "" ==> cs[j].name != key)
  {
    var key := Or(row.containerReference, row.header.parentContainer);
    LastIdExactly(cs, key);
    LastNameExactly(cs, key);
  }

  lemma {:induction false} LastIdExactly(cs: seq<Container>, key: string)
    ensures match LastById(cs, key)
            case Some(c) =>
              exists i :: 0 <= i < |cs| && cs[i] == c && c.id == key && forall j :: i < j < |cs| ==> cs[j].id != key
            case None => forall j :: 0 <= j < |cs| ==> cs[j].id != key
  {
    if cs != [] {
      var front := cs[..|cs| - 1];
      LastIdExactly(front, key);
      assert forall j :: 0 <= j < |front| ==> front[j] == cs[j];
      if cs[|cs| - 1].id != key && LastById(front, key).Some? {
        var i :| 0 <= i < |front| && front[i] == LastById(front, key).value && front[i].id == key
                 && forall j :: i < j < |front| ==> front[j].id != key;
        assert cs[i] == front[i];
      }
    }
  }

  lemma {:induction false} LastNameExactly(cs: seq<Container>, key: string)
    ensures match LastByName(cs, key)
            case Some(c) => && key != ""
              && exists i :: && 0 <= i < |cs| && cs[i] == c && c.name == key
                             && forall j :: i < j < |cs| ==> cs[j].name != key
            case None => key != "" ==> forall j :: 0 <= j < |cs| ==> cs[j].name != key
  {
    if cs != [] {
      var front := cs[..|cs| - 1];
      LastNameExactly(front, key);
      assert forall j :: 0 <= j < |front| ==> front[j] == cs[j];
      if cs[|cs| - 1].name != key && LastByName(front, key).Some? {
        var i :| 0 <= i < |front| && front[i] == LastByName(front, key).value && front[i].name == key
                 && forall j :: i < j < |front| ==> front[j].name != key;
        assert cs[i] == front[i];
      }
    }
  }

  /** Resolution takes the first alias, in iteration order, that any device has, and for it
      the first device in the list. */
  lemma {:induction false} ResolvesFirstAlias(ids: seq<Identity>, aliases: seq<string>)
    ensures var i := Resolve(ids, aliases);
            i < |ids| ==> exists k :: && 0 <= k < |aliases| && aliases[k] in ids[i].aliases
                                      && (forall j :: 0 <= j < i ==> aliases[k] !in ids[j].aliases)
                                      && SharesNone(aliases[..k], ids)
  {
    if aliases != [] {
      var rest := aliases[1..];
      if FirstHolder(ids, aliases[0]) < |ids| {
        assert aliases[..0] == [];
      } else if Resolve(ids, rest) < |ids| {
        ResolvesFirstAlias(ids, rest);
        var i := Resolve(ids, aliases);
        var k :| && 0 <= k < |rest| && rest[k] in ids[i].aliases
                 && (forall j :: 0 <= j < i ==> rest[k] !in ids[j].aliases) && SharesNone(rest[..k], ids);
        assert aliases[k + 1] == rest[k] && aliases[..k + 1] == [aliases[0]] + rest[..k];
      }
    }
  }

  // ----- Counters -----

  /** The positions of the rows whose payload is of some kind. */
  ghost function Where(rows: seq<ContentRow>, kind: Payload -> bool): set<nat> {
    set i: nat | i < |rows| && kind(rows[i].payload)
  }

  lemma WhereOneMore(rows: seq<ContentRow>, kind: Payload -> bool)
    requires rows != []
    ensures var n := |rows| - 1;
            |Where(rows, kind)| == |Where(rows[..n], kind)| + if kind(rows[n].payload) then 1 else 0
  {
    var n := |rows| - 1;
    assert Where(rows, kind) == Where(rows[..n], kind) + if kind(rows[n].payload) then {n} else {};
  }

  /** Each counter counts the rows of its kind, no others and each once. */
  lemma {:induction false} CountersByKind(src: Sources, s: JoinState, rows: seq<ContentRow>)
    ensures var r := ProcessRows(src, s, rows).counts;
            && r.invalid == s.counts.invalid + |Where(rows, (p: Payload) => p.NotAnObject?)|
            && r.parseable == s.counts.parseable + |Where(rows, (p: Payload) => !p.NotAnObject?)|
            && r.commands == s.counts.commands + |Where(rows, (p: Payload) => p.Command?)|
            && r.telemetry == s.counts.telemetry + |Where(rows, (p: Payload) => p.Telemetry?)|
  {
    if rows != [] {
      CountersByKind(src, s, rows[..|rows| - 1]);
      WhereOneMore(rows, (p: Payload) => p.NotAnObject?);
      WhereOneMore(rows, (p: Payload) => !p.NotAnObject?);
      WhereOneMore(rows, (p: Payload) => p.Command?);
      WhereOneMore(rows, (p: Payload) => p.Telemetry?);
    }
  }

  /** The rules that name device d. */
  ghost function Naming(ids: seq<Identity>, rules: seq<seq<string>>, d: nat): set<nat> {
    set k: nat | k < |rules| && exists t :: t in rules[k] && t != "" && FirstHolder(ids, t) == d
  }

  /** A device's rule count is the number of rules that name it. */
  lemma {:induction false} RuleCountIsNaming(ids: seq<Identity>, rules: seq<seq<string>>, d: nat)
    ensures RuleCount(ids, rules, d) == |Naming(ids, rules, d)|
  {
    if rules != [] {
      var n := |rules| - 1;
      RuleCountIsNaming(ids, rules[..n], d);
      assert Naming(ids, rules, d) == Naming(ids, rules[..n], d) + if NamedBy(ids, rules[n], d) then {n} else {};
    }
  }

  // ----- Which rows a device comes from -----

  /** The positions of the rows that device d absorbed. */
  function PositionsFor(src: Sources, s: JoinState, rows: seq<ContentRow>, d: nat): seq<nat> {
    if rows == [] then []
    else
      var n := |rows| - 1;
      PositionsFor(src, s, rows[..n], d) +
      if Contribution(src, Ids(ProcessRows(src, s, rows[..n]).devices), rows[n], d) != [] then [n] else []
  }

  /** The aliases of the container that the row names. */
  function ContainerAliases(src: Sources, row: ContentRow): seq<string> {
    var c := ContainerOf(src.containers, row);
    if c.Some? then c.value.ownerAliases else []
  }

  /** The row shares an alias with the device, itself or through the container it names. */
  ghost predicate SharesWith(src: Sources, row: ContentRow, id: Identity) {
    row.payload.Telemetry? && (ShareAlias(row.payload.aliases, id) || ShareAlias(ContainerAliases(src, row), id))
  }

  /** The device is the one the row names: its id and name stand in for each other. */
  ghost predicate Founds(row: ContentRow, id: Identity) {
    && row.payload.Telemetry? && (row.payload.deviceId != "" || row.payload.deviceName != "")
    && id.deviceId == (if row.payload.deviceId != "" then row.payload.deviceId else row.payload.deviceName)
    && id.deviceName == (if row.payload.deviceName != "" then row.payload.deviceName else row.payload.deviceId)
    && id.nodeId == "" && forall a :: a in id.aliases <==> a in row.payload.aliases
  }

  /** The header that a device founded by the row starts with. */
  ghost predicate Heads(row: ContentRow, h: Header) {
    && row.payload.Telemetry?
    && h.recordId == (if row.header.recordId != "" then row.header.recordId
                      else if row.payload.deviceId != "" then row.payload.deviceId else row.payload.deviceName)
    && h.stamp == row.header.stamp && h.parentContainer == row.header.parentContainer
    && h.contentFormat == row.header.contentFormat && h.payloadSummary == row.header.payloadSummary
    && h.tenantName == row.header.tenantName && h.appDomainName == row.header.appDomainName
  }

  /** The entry holds what decoding the row gives, for the device the row was placed on; a
      founding row is decoded before there is a device. */
  ghost predicate EntryAccounted(src: Sources, row: ContentRow, founding: bool, id: Identity, e: Entry) {
    && (if founding then Founds(row, id) else SharesWith(src, row, id))
    && var reading := src.decode(if founding then None else Some(id), row);
       e.header == row.header && e.status == reading.status && e.metrics == reading.metrics
  }

  /** Entry k of the device comes from row at[k], in order; the first one of a device that the
      inventory did not have founded it. */
  ghost predicate Accounted(
    src: Sources, rows: seq<ContentRow>, founded: bool, id: Identity, at: seq<nat>, es: seq<Entry>)
  {
    && |at| == |es| && (founded ==> at != [])
    && (forall k, m :: 0 <= k < m < |at| ==> at[k] < at[m])
    && forall k :: 0 <= k < |at| ==>
         at[k] < |rows| && EntryAccounted(src, rows[at[k]], founded && k == 0, id, es[k])
  }

  lemma ContributionAccounted(src: Sources, s: JoinState, row: ContentRow, d: nat)
    requires Contribution(src, Ids(s.devices), row, d) != []
    ensures var after := ProcessRow(src, s, row).devices;
            d < |after| && d <= |s.devices|
            && EntryAccounted(src, row, d == |s.devices|, after[d].identity,
                              Contribution(src, Ids(s.devices), row, d)[0])
  {
    PlacedByAliasOnly(src, Ids(s.devices), row);
  }

  lemma FirstAccounted(src: Sources, rows: seq<ContentRow>, row: ContentRow, id: Identity, e: Entry)
    requires EntryAccounted(src, row, true, id, e)
    ensures Accounted(src, rows + [row], true, id, [|rows|], [e])
  {}

  lemma OneMoreAccounted(
    src: Sources, rows: seq<ContentRow>, row: ContentRow, founded: bool, id: Identity,
    at: seq<nat>, es: seq<Entry>, more: seq<Entry>)
    requires Accounted(src, rows, founded, id, at, es) && |more| <= 1
    requires more != [] ==> EntryAccounted(src, row, false, id, more[0])
    ensures Accounted(src, rows + [row], founded, id, at + (if more != [] then [|rows|] else []), es + more)
  {}

  lemma PositionsOneMore(src: Sources, s: JoinState, front: seq<ContentRow>, row: ContentRow, d: nat)
    ensures var more := Contribution(src, Ids(ProcessRows(src, s, front).devices), row, d);
            && PositionsFor(src, s, front + [row], d) ==
               PositionsFor(src, s, front, d) + (if more != [] then [|front|] else [])
            && RowsFor(src, s, front + [row], d) == RowsFor(src, s, front, d) + more
  {
    assert (front + [row])[..|front|] == front;
  }

  /** In every run, whatever device d ends up with is what decoding gave for rows that share an
      alias with it, themselves or through the container they name, or that founded it. */
  lemma {:induction false} RowsBelongToTheirDevice(src: Sources, s: JoinState, rows: seq<ContentRow>, d: nat)
    requires d < |ProcessRows(src, s, rows).devices|
    ensures Accounted(src, rows, |s.devices| <= d, ProcessRows(src, s, rows).devices[d].identity,
                      PositionsFor(src, s, rows, d), RowsFor(src, s, rows, d))
  {
    if rows != [] {
      var front, row := rows[..|rows| - 1], rows[|rows| - 1];
      var before := ProcessRows(src, s, front);
      assert front + [row] == rows;
      PositionsOneMore(src, s, front, row, d);
      if Contribution(src, Ids(before.devices), row, d) != [] { ContributionAccounted(src, before, row, d); }
      if d < |before.devices| {
        RowsBelongToTheirDevice(src, s, front, d);
        KnownDeviceAbsorbs(src, s, front, row, d);
      } else {
        FoundedDeviceAbsorbs(src, s, front, row, d);
      }
    }
  }

  lemma KnownDeviceAbsorbs(src: Sources, s: JoinState, front: seq<ContentRow>, row: ContentRow, d: nat)
    requires var before := ProcessRows(src, s, front);
             && d < |before.devices|
             && Accounted(src, front, |s.devices| <= d, before.devices[d].identity,
                          PositionsFor(src, s, front, d), RowsFor(src, s, front, d))
    ensures var after := ProcessRow(src, ProcessRows(src, s, front), row);
            && d < |after.devices|
            && Accounted(src, front + [row], |s.devices| <= d, after.devices[d].identity,
                         PositionsFor(src, s, front + [row], d), RowsFor(src, s, front + [row], d))
  {
    var before := ProcessRows(src, s, front);
    var more := Contribution(src, Ids(before.devices), row, d);
    RowKeepsIdentity(src, before, row, d);
    PositionsOneMore(src, s, front, row, d);
    if more != [] { ContributionAccounted(src, before, row, d); }
    OneMoreAccounted(src, front, row, |s.devices| <= d, before.devices[d].identity,
                     PositionsFor(src, s, front, d), RowsFor(src, s, front, d), more);
  }

  lemma FoundedDeviceAbsorbs(src: Sources, s: JoinState, front: seq<ContentRow>, row: ContentRow, d: nat)
    requires var before := ProcessRows(src, s, front);
             |before.devices| <= d < |ProcessRow(src, before, row).devices|
    ensures Accounted(src, front + [row], |s.devices| <= d,
                      ProcessRow(src, ProcessRows(src, s, front), row).devices[d].identity,
                      PositionsFor(src, s, front + [row], d), RowsFor(src, s, front + [row], d))
    ensures PositionsFor(src, s, front + [row], d) == [|front|]
  {
    var before := ProcessRows(src, s, front);
    var e := FoundingContribution(src, before, row, d);
    DevicesOnlyGrow(src, s, front);
    FirstPosition(src, s, front, row, d, e);
    FirstAccounted(src, front, row, ProcessRow(src, before, row).devices[d].identity, e);
  }

  lemma FoundingContribution(src: Sources, s: JoinState, row: ContentRow, d: nat) returns (e: Entry)
    requires |s.devices| <= d < |ProcessRow(src, s, row).devices|
    ensures d == |s.devices| && Contribution(src, Ids(s.devices), row, d) == [e]
    ensures EntryAccounted(src, row, true, ProcessRow(src, s, row).devices[d].identity, e)
  {
    e := Contribution(src, Ids(s.devices), row, d)[0];
    ContributionAccounted(src, s, row, d);
  }

  lemma FirstPosition(src: Sources, s: JoinState, front: seq<ContentRow>, row: ContentRow, d: nat, e: Entry)
    requires |ProcessRows(src, s, front).devices| <= d
    requires Contribution(src, Ids(ProcessRows(src, s, front).devices), row, d) == [e]
    ensures PositionsFor(src, s, front + [row], d) == [|front|] && RowsFor(src, s, front + [row], d) == [e]
  {
    NoRowsBeforeBirth(src, s, front, d);
    NoPositionsBeforeBirth(src, s, front, d);
    PositionsOneMore(src, s, front, row, d);
  }

  lemma {:induction false} RowKeepsIdentity(src: Sources, s: JoinState, row: ContentRow, d: nat)
    requires d < |s.devices|
    ensures d < |ProcessRow(src, s, row).devices|
    ensures ProcessRow(src, s, row).devices[d].identity == s.devices[d].identity
  {}

  lemma {:induction false} NoPositionsBeforeBirth(src: Sources, s: JoinState, rows: seq<ContentRow>, d: nat)
    requires |ProcessRows(src, s, rows).devices| <= d
    ensures PositionsFor(src, s, rows, d) == []
  {
    if rows != [] { NoPositionsBeforeBirth(src, s, rows[..|rows| - 1], d); }
  }

  /** A device that the inventory did not have starts with the header of its first row. */
  lemma {:induction false} FoundingHeader(src: Sources, s: JoinState, rows: seq<ContentRow>, d: nat)
    requires |s.devices| <= d < |ProcessRows(src, s, rows).devices|
    ensures var at := PositionsFor(src, s, rows, d);
            at != [] && at[0] < |rows| && Heads(rows[at[0]], Birth(src, s, rows, d).header)
  {
    var front, row := rows[..|rows| - 1], rows[|rows| - 1];
    assert front + [row] == rows;
    BirthOneMore(src, s, front, row, d);
    if d < |ProcessRows(src, s, front).devices| {
      FoundingHeader(src, s, front, d);
      PositionsOneMore(src, s, front, row, d);
    } else {
      FoundedDeviceAbsorbs(src, s, front, row, d);
    }
  }

  lemma BirthOneMore(src: Sources, s: JoinState, front: seq<ContentRow>, row: ContentRow, d: nat)
    requires |s.devices| <= d < |ProcessRow(src, ProcessRows(src, s, front), row).devices|
    ensures d < |ProcessRows(src, s, front + [row]).devices|
    ensures var b := Birth(src, s, front + [row], d);
            if d < |ProcessRows(src, s, front).devices| then b == Birth(src, s, front, d) else Heads(row, b.header)
  {
    assert (front + [row])[..|front|] == front;
    RowTouchesOneDevice(src, ProcessRows(src, s, front), row, d);
  }

  // ----- What a finished device shows, given its entries `es` -----

  ghost predicate ShowsHeaderAndStatus(h0: Header, es: seq<Entry>, r: DeviceView) {
    && HeaderMeans(h0, es, r.header)
    && (r.statusReported <==> exists i :: 0 <= i < |es| && es[i].status.Some?)
    && (!r.statusReported ==> r.status == "unknown")
    && (r.statusReported ==> exists i :: && 0 <= i < |es| && es[i].status == Some(r.status)
                                         && forall j :: 0 <= j < i ==> es[j].status == None)
  }

  ghost predicate ShowsNewestMetrics(es: seq<Entry>, shown: seq<Metric>, firsts: seq<int>) {
    var obs := Observations(SamplesOf(es));
    && NamesInOrder(obs, firsts)
    && |shown| == (if |firsts| < 8 then |firsts| else 8)
    && forall k :: 0 <= k < |shown| ==> shown[k].name == obs[firsts[k]].metric.name && IsNewestReading(obs, shown[k])
  }

  /** The history item holds the row and what decoding it gave. */
  ghost predicate ItemAccounted(src: Sources, row: ContentRow, owner: Option<Identity>, item: HistoryItem) {
    && item.recordId == row.header.recordId && item.stamp == row.header.stamp
    && item.parentContainer == row.header.parentContainer
    && item.status == src.decode(owner, row).status && item.metrics == src.decode(owner, row).metrics
  }

  /** One item for each row the device came from. */
  ghost predicate ItemsAccounted(
    src: Sources, rows: seq<ContentRow>, founded: bool, id: Identity, at: seq<nat>, items: seq<HistoryItem>)
  {
    && |items| == |at|
    && forall k :: 0 <= k < |at| ==>
         at[k] < |rows| && ItemAccounted(src, rows[at[k]], if founded && k == 0 then None else Some(id), items[k])
  }

  ghost predicate ShowsSortedHistory(items: seq<HistoryItem>, r: DeviceView) {
    Sorted(r.history) && Rearranges(r.history, items) && |r.history| == r.recordCount == |items|
  }

  lemma EntriesGiveItems(
    src: Sources, rows: seq<ContentRow>, founded: bool, id: Identity, at: seq<nat>, es: seq<Entry>)
    requires Accounted(src, rows, founded, id, at, es)
    ensures ItemsAccounted(src, rows, founded, id, at, HistoriesOf(es))
  {
    forall k | 0 <= k < |at|
      ensures at[k] < |rows|
              && ItemAccounted(src, rows[at[k]], if founded && k == 0 then None else Some(id), HistoriesOf(es)[k])
    {
      assert EntryAccounted(src, rows[at[k]], founded && k == 0, id, es[k]);
      assert HistoriesOf(es)[k] == HistoryOf(es[k]);
    }
  }

  /** Everything a finished device shows, in terms of the rows `at`: header and status, the
      first eight metric names with their newest readings, and the sorted history. */
  ghost predicate DeviceAccounted(
    src: Sources, rows: seq<ContentRow>, founded: bool, h0: Header, at: seq<nat>, r: DeviceView)
  {
    && (exists es :: && Accounted(src, rows, founded, r.identity, at, es) && ShowsHeaderAndStatus(h0, es, r)
                     && exists firsts :: ShowsNewestMetrics(es, r.panel.metrics, firsts))
    && (exists items :: ItemsAccounted(src, rows, founded, r.identity, at, items) && ShowsSortedHistory(items, r))
    && (founded ==> at != [] && at[0] < |rows| && Heads(rows[at[0]], h0))
  }

  lemma AbsorbedHeaderAndStatus(b: DeviceView, es: seq<Entry>, r: DeviceView)
    requires b == NewDevice(b.identity, b.header)
    requires var d := AbsorbAll(b, es);
             r.header == d.header && r.status == d.status && r.statusReported == d.statusReported
    ensures ShowsHeaderAndStatus(b.header, es, r)
  {
    HeaderIsOfLatestRow(b, es);
    StatusIsOfFirstReport(b, es);
  }

  lemma AbsorbedHistory(b: DeviceView, es: seq<Entry>, hits: nat)
    requires b == NewDevice(b.identity, b.header)
    ensures ShowsSortedHistory(HistoriesOf(es), Finished(AbsorbAll(b, es), hits))
    ensures var d := AbsorbAll(b, es);
            d.ruleCount == 0 && d.panel == MergeSamples(EMPTY_PANEL, SamplesOf(es)) && d.identity == b.identity
  {
    NothingIsLost(b, es);
    SortIsStable(HistoriesOf(es));
    assert [] + HistoriesOf(es) == HistoriesOf(es);
  }

  lemma NewestMetrics(es: seq<Entry>, shown: seq<Metric>) returns (firsts: seq<int>)
    requires shown == MergeSamples(EMPTY_PANEL, SamplesOf(es)).metrics
    ensures ShowsNewestMetrics(es, shown, firsts)
  {
    firsts := PanelShowsNewestPerName(SamplesOf(es));
  }

  lemma AbsorbedDevice(
    src: Sources, rows: seq<ContentRow>, founded: bool, b: DeviceView, at: seq<nat>, es: seq<Entry>, hits: nat)
    requires b == NewDevice(b.identity, b.header) && Accounted(src, rows, founded, b.identity, at, es)
    requires founded ==> at != [] && at[0] < |rows| && Heads(rows[at[0]], b.header)
    ensures var r := Finished(AbsorbAll(b, es), hits);
            DeviceAccounted(src, rows, founded, b.header, at, r) && r.ruleCount == hits && r.identity == b.identity
  {
    var d := AbsorbAll(b, es);
    AbsorbedHeaderAndStatus(b, es, Finished(d, hits));
    AbsorbedHistory(b, es, hits);
    var firsts := NewestMetrics(es, d.panel.metrics);
    EntriesGiveItems(src, rows, founded, b.identity, at, es);
  }

  /** What the finished model shows of any device, in terms of the rows attributed to it. */
  lemma {:induction false} FinishedDevice(
    src: Sources, entries: seq<(Identity, Header)>, rows: seq<ContentRow>, d: nat, hits: nat)
    returns (h0: Header, at: seq<nat>)
    requires d < |ProcessRows(src, Inventory(entries), rows).devices|
    ensures var r := Finished(ProcessRows(src, Inventory(entries), rows).devices[d], hits);
            && DeviceAccounted(src, rows, |entries| <= d, h0, at, r) && r.ruleCount == hits
            && (d < |entries| ==> r.identity == entries[d].0 && h0 == entries[d].1)
  {
    var s := Inventory(entries);
    var b, es := Birth(src, s, rows, d), RowsFor(src, s, rows, d);
    h0, at := b.header, PositionsFor(src, s, rows, d);
    DeviceIsFoldOfItsRows(src, s, rows, d);
    DevicesAreBornNew(src, entries, rows, d);
    RowsBelongToTheirDevice(src, s, rows, d);
    NothingIsLost(b, es);
    if |entries| <= d { FoundingHeader(src, s, rows, d); }
    AbsorbedDevice(src, rows, |entries| <= d, b, at, es, hits);
  }
}

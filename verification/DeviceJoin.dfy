/** The company read model as a fold over content instances: which device each row goes
    to, what the counters record, and what every device holds at the end.

    A set of aliases that the source iterates is given as a sequence, its iteration order;
    every statement is for all orders. */
module DeviceJoin {
  import opened Options
  import opened MetricMerge
  import opened DeviceRecord
  import opened StableSort

  datatype Container = Container(id: string, name: string, ownerAliases: seq<string>)

  datatype Payload =
    | NotAnObject
    | Command
    | Telemetry(deviceId: string, deviceName: string, aliases: seq<string>)

  /** In a row's header, recordId is its name and parentContainer its `pi`. */
  datatype ContentRow = ContentRow(header: Header, containerReference: string, payload: Payload, content: string)

  datatype Reading = Reading(metrics: seq<Metric>, status: Option<string>)

  /** Metric extraction, naming and unit enrichment; it may depend on the device. */
  type Decoder = (Option<Identity>, ContentRow) -> Reading

  datatype Sources = Sources(containers: seq<Container>, decode: Decoder)

  datatype Counts = Counts(invalid: nat, parseable: nat, commands: nat, telemetry: nat, unmapped: nat)

  datatype JoinState = JoinState(devices: seq<DeviceView>, counts: Counts)

  datatype Placement = Existing(index: nat) | Created | Nowhere

  function Ids(devices: seq<DeviceView>): (ids: seq<Identity>)
    ensures |ids| == |devices| && forall i :: 0 <= i < |ids| ==> ids[i] == devices[i].identity
  {
    seq(|devices|, i requires 0 <= i < |devices| => devices[i].identity)
  }

  /** The first device that has the alias, or |ids|. */
  function FirstHolder(ids: seq<Identity>, a: string): (i: nat)
    ensures i <= |ids|
    ensures i < |ids| ==> a in ids[i].aliases
    ensures forall j :: 0 <= j < i ==> a !in ids[j].aliases
  {
    if ids == [] then 0 else if a in ids[0].aliases then 0 else 1 + FirstHolder(ids[1..], a)
  }

  /** resolve_company_device: the first alias, in iteration order, that any device has. */
  function Resolve(ids: seq<Identity>, aliases: seq<string>): (i: nat)
    ensures i <= |ids|
  {
    if aliases == [] then |ids|
    else if FirstHolder(ids, aliases[0]) < |ids| then FirstHolder(ids, aliases[0])
    else Resolve(ids, aliases[1..])
  }

  ghost predicate ShareAlias(aliases: seq<string>, id: Identity) {
    exists a :: a in aliases && a in id.aliases
  }

  ghost predicate SharesNone(aliases: seq<string>, ids: seq<Identity>) {
    forall i :: 0 <= i < |ids| ==> !ShareAlias(aliases, ids[i])
  }

  lemma {:induction false} ResolvedByAlias(ids: seq<Identity>, aliases: seq<string>)
    ensures var i := Resolve(ids, aliases);
            if i < |ids| then ShareAlias(aliases, ids[i]) else SharesNone(aliases, ids)
  {
    if aliases != [] {
      assert forall a :: a in aliases <==> a == aliases[0] || a in aliases[1..];
      if FirstHolder(ids, aliases[0]) == |ids| { ResolvedByAlias(ids, aliases[1..]); }
    }
  }

  /** A dictionary comprehension keeps the last container of each key. */
  function LastById(cs: seq<Container>, key: string): Option<Container> {
    if cs == [] then None
    else if cs[|cs| - 1].id == key then Some(cs[|cs| - 1]) else LastById(cs[..|cs| - 1], key)
  }

  function LastByName(cs: seq<Container>, key: string): Option<Container> {
    if cs == [] then None
    else
      var c := cs[|cs| - 1];
      if c.name != "" && c.name == key then Some(c) else LastByName(cs[..|cs| - 1], key)
  }

  function ContainerOf(cs: seq<Container>, row: ContentRow): Option<Container> {
    var reference := Or(row.containerReference, row.header.parentContainer);
    match LastById(cs, reference)
    case Some(c) => Some(c)
    case None => LastByName(cs, reference)
  }

  function Place(src: Sources, ids: seq<Identity>, row: ContentRow): (p: Placement)
    requires row.payload.Telemetry?
    ensures p.Existing? ==> p.index < |ids|
  {
    var direct := Resolve(ids, row.payload.aliases);
    var c := ContainerOf(src.containers, row);
    var i := if direct == |ids| && c.Some? then Resolve(ids, c.value.ownerAliases) else direct;
    if i < |ids| then Existing(i)
    else if row.payload.deviceId != "" || row.payload.deviceName != "" then Created
    else Nowhere
  }

  function EntryFor(src: Sources, owner: Option<Identity>, row: ContentRow): Entry {
    var reading := src.decode(owner, row);
    Entry(row.header, reading.status, reading.metrics)
  }

  function TelemetryOnlyIdentity(row: ContentRow): Identity
    requires row.payload.Telemetry?
  {
    Identity(Or(row.payload.deviceId, row.payload.deviceName), Or(row.payload.deviceName, row.payload.deviceId), "",
             set a | a in row.payload.aliases)
  }

  /** A device born from a row already shows that row's header. */
  function TelemetryOnlyHeader(row: ContentRow): Header
    requires row.payload.Telemetry?
  {
    row.header.(recordId := Or(row.header.recordId, Or(row.payload.deviceId, row.payload.deviceName)))
  }

  /** The devices after a telemetry row, and how much it adds to the unmapped count. */
  function Deliver(src: Sources, devices: seq<DeviceView>, row: ContentRow): (seq<DeviceView>, nat)
    requires row.payload.Telemetry?
  {
    match Place(src, Ids(devices), row)
    case Existing(i) =>
      (devices[i := Absorb(devices[i], EntryFor(src, Some(devices[i].identity), row))], 0)
    case Created =>
      var d := NewDevice(TelemetryOnlyIdentity(row), TelemetryOnlyHeader(row));
      (devices + [Absorb(d, EntryFor(src, None, row))], 0)
    case Nowhere =>
      (devices, if src.decode(None, row).metrics != [] then 1 else 0)
  }

  function ProcessRow(src: Sources, s: JoinState, row: ContentRow): JoinState {
    var c := s.counts;
    match row.payload
    case NotAnObject => s.(counts := c.(invalid := c.invalid + 1))
    case Command => s.(counts := c.(parseable := c.parseable + 1, commands := c.commands + 1))
    case Telemetry(_, _, _) =>
      var (devices, missed) := Deliver(src, s.devices, row);
      JoinState(devices, c.(parseable := c.parseable + 1, telemetry := c.telemetry + 1,
                            unmapped := c.unmapped + missed))
  }

  function ProcessRows(src: Sources, s: JoinState, rows: seq<ContentRow>): JoinState {
    if rows == [] then s else ProcessRow(src, ProcessRows(src, s, rows[..|rows| - 1]), rows[|rows| - 1])
  }

  // ----- No guesswork -----

  ghost predicate Names(c: Container, cs: seq<Container>, row: ContentRow) {
    && c in cs
    && var reference := Or(row.containerReference, row.header.parentContainer);
       c.id == reference || (c.name != "" && c.name == reference)
  }

  lemma {:induction false} LookupsAreMembers(cs: seq<Container>, key: string)
    ensures LastById(cs, key).Some? ==> LastById(cs, key).value in cs && LastById(cs, key).value.id == key
    ensures LastByName(cs, key).Some? ==>
              LastByName(cs, key).value in cs && key != "" && LastByName(cs, key).value.name == key
  {
    if cs != [] { LookupsAreMembers(cs[..|cs| - 1], key); }
  }

  /** A telemetry row is attributed only through an alias it shares with the device, itself
      or through the container it names; it founds a device only when it names one and
      shares no alias with any; in every other case it goes nowhere. */
  lemma {:induction false} PlacedByAliasOnly(src: Sources, ids: seq<Identity>, row: ContentRow)
    requires row.payload.Telemetry?
    ensures var c := ContainerOf(src.containers, row);
            var viaContainer := if c.Some? then c.value.ownerAliases else [];
            && (c.Some? ==> Names(c.value, src.containers, row))
            && match Place(src, ids, row)
               case Existing(i) =>
                 || ShareAlias(row.payload.aliases, ids[i])
                 || (SharesNone(row.payload.aliases, ids) && ShareAlias(viaContainer, ids[i]))
               case Created =>
                 && SharesNone(row.payload.aliases, ids) && SharesNone(viaContainer, ids)
                 && (row.payload.deviceId != "" || row.payload.deviceName != "")
               case Nowhere =>
                 && SharesNone(row.payload.aliases, ids) && SharesNone(viaContainer, ids)
                 && row.payload.deviceId == "" && row.payload.deviceName == ""
  {
    LookupsAreMembers(src.containers, Or(row.containerReference, row.header.parentContainer));
    ResolvedByAlias(ids, row.payload.aliases);
    var c := ContainerOf(src.containers, row);
    if c.Some? { ResolvedByAlias(ids, c.value.ownerAliases); }
  }

  lemma {:induction false} DevicesOnlyGrow(src: Sources, s: JoinState, rows: seq<ContentRow>)
    ensures |s.devices| <= |ProcessRows(src, s, rows).devices|
    ensures forall i :: 0 <= i < |s.devices| ==>
              ProcessRows(src, s, rows).devices[i].identity == s.devices[i].identity
  {
    if rows != [] { DevicesOnlyGrow(src, s, rows[..|rows| - 1]); }
  }

  /** A device that only telemetry founded shares no alias with any earlier device. */
  lemma {:induction false} TelemetryOnlyDevicesAreDisjoint(src: Sources, s: JoinState, rows: seq<ContentRow>)
    ensures var ds := ProcessRows(src, s, rows).devices;
            forall i, j :: 0 <= i < j < |ds| && |s.devices| <= j ==> ds[i].identity.aliases !! ds[j].identity.aliases
  {
    if rows != [] {
      var n := |rows| - 1;
      var before, row := ProcessRows(src, s, rows[..n]), rows[n];
      TelemetryOnlyDevicesAreDisjoint(src, s, rows[..n]);
      DevicesOnlyGrow(src, s, rows[..n]);
      if row.payload.Telemetry? && Place(src, Ids(before.devices), row) == Created {
        PlacedByAliasOnly(src, Ids(before.devices), row);
        forall i, a | 0 <= i < |before.devices| && a in row.payload.aliases
          ensures a !in before.devices[i].identity.aliases
        {
          assert !ShareAlias(row.payload.aliases, Ids(before.devices)[i]);
        }
      }
    }
  }

  // ----- Conservation -----

  function TotalRecords(devices: seq<DeviceView>): nat {
    if devices == [] then 0 else TotalRecords(devices[..|devices| - 1]) + devices[|devices| - 1].recordCount
  }

  lemma {:induction false} TotalAfterAbsorb(devices: seq<DeviceView>, i: nat, e: Entry)
    requires i < |devices|
    ensures TotalRecords(devices[i := Absorb(devices[i], e)]) == TotalRecords(devices) + 1
  {
    var n, after := |devices| - 1, devices[i := Absorb(devices[i], e)];
    if i == n {
      assert after[..n] == devices[..n];
    } else {
      TotalAfterAbsorb(devices[..n], i, e);
      assert after[..n] == devices[..n][i := Absorb(devices[i], e)];
    }
  }

  /** A telemetry row that finds no device and has nothing to display. */
  predicate IsSilent(src: Sources, ids: seq<Identity>, row: ContentRow) {
    row.payload.Telemetry? && Place(src, ids, row) == Nowhere && src.decode(None, row).metrics == []
  }

  function Silent(src: Sources, s: JoinState, rows: seq<ContentRow>): nat {
    if rows == [] then 0
    else
      var n := |rows| - 1;
      Silent(src, s, rows[..n]) +
      if IsSilent(src, Ids(ProcessRows(src, s, rows[..n]).devices), rows[n]) then 1 else 0
  }

  lemma {:induction false} RowIsCountedOnce(src: Sources, s: JoinState, row: ContentRow)
    ensures var r := ProcessRow(src, s, row);
            && r.counts.invalid + r.counts.parseable == s.counts.invalid + s.counts.parseable + 1
            && r.counts.parseable - s.counts.parseable ==
                 (r.counts.commands - s.counts.commands) + (r.counts.telemetry - s.counts.telemetry)
            && r.counts.telemetry - s.counts.telemetry ==
                 (TotalRecords(r.devices) - TotalRecords(s.devices)) + (r.counts.unmapped - s.counts.unmapped) +
                 if IsSilent(src, Ids(s.devices), row) then 1 else 0
  {
    if row.payload.Telemetry? {
      match Place(src, Ids(s.devices), row)
      case Existing(i) => TotalAfterAbsorb(s.devices, i, EntryFor(src, Some(s.devices[i].identity), row));
      case Created =>
        var after := ProcessRow(src, s, row).devices;
        assert after[..|after| - 1] == s.devices;
      case Nowhere =>
    }
  }

  lemma {:induction false} CountersAreConserved(src: Sources, s: JoinState, rows: seq<ContentRow>)
    ensures var r := ProcessRows(src, s, rows);
            && (r.counts.invalid - s.counts.invalid) + (r.counts.parseable - s.counts.parseable) == |rows|
            && r.counts.parseable - s.counts.parseable ==
                 (r.counts.commands - s.counts.commands) + (r.counts.telemetry - s.counts.telemetry)
            && r.counts.telemetry - s.counts.telemetry ==
                 (TotalRecords(r.devices) - TotalRecords(s.devices)) + (r.counts.unmapped - s.counts.unmapped) +
                 Silent(src, s, rows)
  {
    if rows != [] {
      var n := |rows| - 1;
      CountersAreConserved(src, s, rows[..n]);
      RowIsCountedOnce(src, ProcessRows(src, s, rows[..n]), rows[n]);
    }
  }

  // ----- Every device is the fold of exactly its own rows -----

  /** What a row adds to device d: one entry if it is placed there, else nothing. */
  function Contribution(src: Sources, ids: seq<Identity>, row: ContentRow, d: nat): (es: seq<Entry>)
    ensures |es| <= 1 && (d > |ids| ==> es == [])
  {
    if !row.payload.Telemetry? then []
    else match Place(src, ids, row)
         case Existing(i) => if i == d then [EntryFor(src, Some(ids[i]), row)] else []
         case Created => if |ids| == d then [EntryFor(src, None, row)] else []
         case Nowhere => []
  }

  function RowsFor(src: Sources, s: JoinState, rows: seq<ContentRow>, d: nat): seq<Entry> {
    if rows == [] then []
    else
      var n := |rows| - 1;
      RowsFor(src, s, rows[..n], d) + Contribution(src, Ids(ProcessRows(src, s, rows[..n]).devices), rows[n], d)
  }

  function Birth(src: Sources, s: JoinState, rows: seq<ContentRow>, d: nat): DeviceView
    requires d < |ProcessRows(src, s, rows).devices|
  {
    if d < |s.devices| then s.devices[d]
    else
      var n := |rows| - 1;
      if d < |ProcessRows(src, s, rows[..n]).devices| then Birth(src, s, rows[..n], d)
      else NewDevice(TelemetryOnlyIdentity(rows[n]), TelemetryOnlyHeader(rows[n]))
  }

  lemma {:induction false} NoRowsBeforeBirth(src: Sources, s: JoinState, rows: seq<ContentRow>, d: nat)
    requires |ProcessRows(src, s, rows).devices| <= d
    ensures RowsFor(src, s, rows, d) == []
  {
    if rows != [] { NoRowsBeforeBirth(src, s, rows[..|rows| - 1], d); }
  }

  lemma AbsorbSome(d: DeviceView, es: seq<Entry>, more: seq<Entry>)
    requires |more| <= 1
    ensures AbsorbAll(d, es + more) == AbsorbAll(AbsorbAll(d, es), more)
  {
    if more == [] {
      assert es + more == es;
    } else {
      assert (es + more)[..|es|] == es;
      assert AbsorbAll(AbsorbAll(d, es), more) == Absorb(AbsorbAll(d, es), more[0]) by { assert more[..0] == []; }
    }
  }

  lemma {:induction false} RowTouchesOneDevice(src: Sources, s: JoinState, row: ContentRow, d: nat)
    ensures var after, es := ProcessRow(src, s, row).devices, Contribution(src, Ids(s.devices), row, d);
            && (d < |s.devices| ==> d < |after| && after[d] == AbsorbAll(s.devices[d], es))
            && (|s.devices| <= d < |after| ==>
                  && row.payload.Telemetry?
                  && after[d] == AbsorbAll(NewDevice(TelemetryOnlyIdentity(row), TelemetryOnlyHeader(row)), es))
  {
    var es := Contribution(src, Ids(s.devices), row, d);
    if es != [] { assert es[..0] == []; }
  }

  /** The interleaved, in-place join leaves each device as if its own rows alone had been
      absorbed, in order, into the device as it was created. */
  lemma {:induction false} DeviceIsFoldOfItsRows(src: Sources, s: JoinState, rows: seq<ContentRow>, d: nat)
    requires d < |ProcessRows(src, s, rows).devices|
    ensures ProcessRows(src, s, rows).devices[d] ==
            AbsorbAll(Birth(src, s, rows, d), RowsFor(src, s, rows, d))
  {
    if rows != [] {
      var n := |rows| - 1;
      var before, row := ProcessRows(src, s, rows[..n]), rows[n];
      var es, more := RowsFor(src, s, rows[..n], d), Contribution(src, Ids(before.devices), row, d);
      RowTouchesOneDevice(src, before, row, d);
      AbsorbSome(Birth(src, s, rows, d), es, more);
      if d < |before.devices| {
        DeviceIsFoldOfItsRows(src, s, rows[..n], d);
      } else {
        NoRowsBeforeBirth(src, s, rows[..n], d);
        DevicesOnlyGrow(src, s, rows[..n]);
      }
    }
  }

  // ----- Rules and the finished model -----

  /** A rule names device i through some target's alias; a target without an alias is "". */
  predicate NamedBy(ids: seq<Identity>, targets: seq<string>, i: nat) {
    exists t :: t in targets && t != "" && FirstHolder(ids, t) == i
  }

  lemma NamedByStep(ids: seq<Identity>, targets: seq<string>, t: string)
    ensures forall i: nat :: NamedBy(ids, targets + [t], i) <==>
                        NamedBy(ids, targets, i) || (t != "" && FirstHolder(ids, t) == i)
  {
    assert forall x :: x in targets + [t] <==> x in targets || x == t;
  }

  function WithHits(d: DeviceView, hits: nat): DeviceView {
    d.(ruleCount := d.ruleCount + hits)
  }

  function RuleCount(ids: seq<Identity>, rules: seq<seq<string>>, d: nat): (n: nat)
    ensures n <= |rules|
  {
    if rules == [] then 0
    else RuleCount(ids, rules[..|rules| - 1], d) + if NamedBy(ids, rules[|rules| - 1], d) then 1 else 0
  }

  function Inventory(entries: seq<(Identity, Header)>): (s: JoinState)
    ensures |s.devices| == |entries|
  {
    JoinState(seq(|entries|, i requires 0 <= i < |entries| => NewDevice(entries[i].0, entries[i].1)),
              Counts(0, 0, 0, 0, 0))
  }

  function Finished(d: DeviceView, hits: nat): DeviceView {
    WithHits(d, hits).(history := SortByStamp(d.history))
  }

  lemma {:induction false} DevicesAreBornNew(
    src: Sources, entries: seq<(Identity, Header)>, rows: seq<ContentRow>, d: nat)
    requires d < |ProcessRows(src, Inventory(entries), rows).devices|
    ensures var b := Birth(src, Inventory(entries), rows, d); b == NewDevice(b.identity, b.header)
  {
    if |entries| <= d && d < |ProcessRows(src, Inventory(entries), rows[..|rows| - 1]).devices| {
      DevicesAreBornNew(src, entries, rows[..|rows| - 1], d);
    }
  }
}

/** One company device: the fields that telemetry rows update in place, and what those
    fields mean after any rows. A missing or zero timestamp is 0; a missing text is "". */
module DeviceRecord {
  import opened Options
  import opened MetricMerge

  /** The part of a device that never changes once it is created. */
  datatype Identity = Identity(deviceId: string, deviceName: string, nodeId: string, aliases: set<string>)

  /** The latest-row fields, which change together. */
  datatype Header = Header(
    stamp: int, recordId: string, parentContainer: string, contentFormat: string,
    payloadSummary: string, tenantName: string, appDomainName: string)

  datatype HistoryItem = HistoryItem(
    recordId: string, stamp: int, status: Option<string>, metrics: seq<Metric>, parentContainer: string)

  /** A telemetry row as the device it is attributed to sees it. */
  datatype Entry = Entry(header: Header, status: Option<string>, metrics: seq<Metric>)

  datatype DeviceView = DeviceView(
    identity: Identity, header: Header, status: string, statusReported: bool,
    panel: Panel, recordCount: nat, history: seq<HistoryItem>, ruleCount: nat)

  function NewDevice(identity: Identity, header: Header): DeviceView {
    DeviceView(identity, header, "unknown", false, EMPTY_PANEL, 0, [], 0)
  }

  function Or(text: string, fallback: string): string {
    if text != "" then text else fallback
  }

  function HistoryOf(e: Entry): HistoryItem {
    HistoryItem(e.header.recordId, e.header.stamp, e.status, e.metrics, e.header.parentContainer)
  }

  function UpdateHeader(h: Header, e: Header): Header {
    if e.stamp != 0 && (h.stamp == 0 || e.stamp > h.stamp) then
      Header(e.stamp, Or(e.recordId, h.recordId), e.parentContainer, e.contentFormat, e.payloadSummary,
             Or(e.tenantName, h.tenantName), Or(e.appDomainName, h.appDomainName))
    else h
  }

  function Absorb(d: DeviceView, e: Entry): DeviceView {
    var reports := e.status.Some? && !d.statusReported;
    d.(recordCount := d.recordCount + 1,
       history := d.history + [HistoryOf(e)],
       header := UpdateHeader(d.header, e.header),
       status := if reports then e.status.value else d.status,
       statusReported := d.statusReported || reports,
       panel := MergeSample(d.panel, Sample(e.metrics, e.header.stamp)))
  }

  function AbsorbAll(d: DeviceView, es: seq<Entry>): DeviceView {
    if es == [] then d else Absorb(AbsorbAll(d, es[..|es| - 1]), es[|es| - 1])
  }

  // ----- What the fields mean -----

  /** Row i carries a timestamp above the initial one and above every earlier row's. */
  ghost predicate IsRecord(stamp0: int, es: seq<Entry>, i: int) {
    && 0 <= i < |es| && es[i].header.stamp != 0
    && (stamp0 == 0 || es[i].header.stamp > stamp0)
    && forall j :: 0 <= j < i && es[j].header.stamp != 0 ==> es[j].header.stamp < es[i].header.stamp
  }

  /** Row i is the first-processed row with the greatest timestamp. */
  ghost predicate IsLatest(stamp0: int, es: seq<Entry>, i: int) {
    && IsRecord(stamp0, es, i)
    && forall j :: 0 <= j < |es| && es[j].header.stamp != 0 ==> es[j].header.stamp <= es[i].header.stamp
  }

  ghost predicate HasLatest(stamp0: int, es: seq<Entry>) { exists i :: IsLatest(stamp0, es, i) }

  ghost predicate Displays(h: Header, row: Header) {
    && h.stamp == row.stamp && h.parentContainer == row.parentContainer
    && h.contentFormat == row.contentFormat && h.payloadSummary == row.payloadSummary
  }

  /** `value` is the field of the last record row that carries one, else the initial value. */
  ghost predicate LastCarried(stamp0: int, es: seq<Entry>, field: Header -> string, initial: string, value: string) {
    || (value == initial && forall j :: IsRecord(stamp0, es, j) ==> field(es[j].header) == "")
    || exists i :: CarriedFrom(stamp0, es, field, value, i)
  }

  ghost predicate CarriedFrom(stamp0: int, es: seq<Entry>, field: Header -> string, value: string, i: int) {
    && IsRecord(stamp0, es, i) && value == field(es[i].header) != ""
    && forall j :: i < j && IsRecord(stamp0, es, j) ==> field(es[j].header) == ""
  }

  lemma RecordsOfPrefix(stamp0: int, es: seq<Entry>, e: Entry)
    ensures forall i :: i < |es| ==> (IsRecord(stamp0, es + [e], i) <==> IsRecord(stamp0, es, i))
  {
    var all := es + [e];
    forall i | i < |es| ensures IsRecord(stamp0, all, i) <==> IsRecord(stamp0, es, i) {
      assert forall j :: 0 <= j <= i ==> all[j] == es[j];
    }
  }

  /** `h` is the header after rows `es`: its timestamp is the maximum over the initial value
      and the rows, and its fields come together from the first row that attains it. */
  ghost predicate HeaderMeans(h0: Header, es: seq<Entry>, h: Header) {
    if HasLatest(h0.stamp, es)
    then exists i :: IsLatest(h0.stamp, es, i) && Displays(h, es[i].header)
    else h == h0 && forall j :: 0 <= j < |es| && es[j].header.stamp != 0 ==>
                      h0.stamp != 0 && es[j].header.stamp <= h0.stamp
  }

  lemma LatestOfPrefix(stamp0: int, es: seq<Entry>, e: Entry, i: int)
    requires 0 <= i < |es|
    requires e.header.stamp == 0 || e.header.stamp <= es[i].header.stamp
    ensures IsLatest(stamp0, es + [e], i) <==> IsLatest(stamp0, es, i)
  {
    var all := es + [e];
    RecordsOfPrefix(stamp0, es, e);
    assert forall j :: 0 <= j < |es| ==> all[j] == es[j];
  }

  lemma HeaderStep(h0: Header, es: seq<Entry>, h: Header, e: Entry)
    requires HeaderMeans(h0, es, h)
    ensures HeaderMeans(h0, es + [e], UpdateHeader(h, e.header))
  {
    var all, n, s0 := es + [e], |es|, h0.stamp;
    assert forall j :: 0 <= j < n ==> all[j] == es[j];
    if HasLatest(s0, es) {
      var i :| IsLatest(s0, es, i) && Displays(h, es[i].header);
      if e.header.stamp != 0 && e.header.stamp > h.stamp {
        assert IsLatest(s0, all, n);
      } else {
        LatestOfPrefix(s0, es, e, i);
        assert IsLatest(s0, all, i);
      }
    } else if e.header.stamp != 0 && (s0 == 0 || e.header.stamp > s0) {
      assert IsLatest(s0, all, n);
    } else {
      assert forall k :: !IsRecord(s0, all, k) by { RecordsOfPrefix(s0, es, e); }
    }
  }

  lemma {:induction false} HeaderIsOfLatestRow(d: DeviceView, es: seq<Entry>)
    ensures HeaderMeans(d.header, es, AbsorbAll(d, es).header)
  {
    if es != [] {
      var n := |es| - 1;
      HeaderIsOfLatestRow(d, es[..n]);
      HeaderStep(d.header, es[..n], AbsorbAll(d, es[..n]).header, es[n]);
      assert es == es[..n] + [es[n]];
    }
  }

  /** The source's comparison against the current header detects exactly the records. */
  lemma {:induction false} UpdatesIffRecord(d: DeviceView, es: seq<Entry>, e: Entry)
    ensures var h := AbsorbAll(d, es).header;
            (e.header.stamp != 0 && (h.stamp == 0 || e.header.stamp > h.stamp))
            <==> IsRecord(d.header.stamp, es + [e], |es|)
  {
    HeaderIsOfLatestRow(d, es);
    var all := es + [e];
    assert forall j :: 0 <= j < |es| ==> all[j] == es[j];
    if HasLatest(d.header.stamp, es) {
      var i :| IsLatest(d.header.stamp, es, i) && Displays(AbsorbAll(d, es).header, es[i].header);
      assert all[i] == es[i];
    }
  }

  function RecordIdOf(h: Header): string { h.recordId }
  function TenantOf(h: Header): string { h.tenantName }
  function AppDomainOf(h: Header): string { h.appDomainName }

  lemma CarryStep(stamp0: int, es: seq<Entry>, e: Entry, field: Header -> string, initial: string, h: Header)
    requires LastCarried(stamp0, es, field, initial, field(h))
    requires e.header.stamp != 0 && (h.stamp == 0 || e.header.stamp > h.stamp) <==> IsRecord(stamp0, es + [e], |es|)
    requires field(UpdateHeader(h, e.header)) ==
             if IsRecord(stamp0, es + [e], |es|) then Or(field(e.header), field(h)) else field(h)
    ensures LastCarried(stamp0, es + [e], field, initial, field(UpdateHeader(h, e.header)))
  {
    var all, n := es + [e], |es|;
    RecordsOfPrefix(stamp0, es, e);
    assert forall j :: 0 <= j < n ==> all[j] == es[j];
    if IsRecord(stamp0, all, n) && field(e.header) != "" {
      assert CarriedFrom(stamp0, all, field, field(e.header), n);
    } else if i :| CarriedFrom(stamp0, es, field, field(h), i) {
      assert CarriedFrom(stamp0, all, field, field(h), i);
    }
  }

  /** record_id, tenant and app domain keep the last non-empty value any new maximum brought. */
  lemma {:induction false} CarriedFields(d: DeviceView, es: seq<Entry>)
    ensures var h := AbsorbAll(d, es).header;
            && LastCarried(d.header.stamp, es, RecordIdOf, d.header.recordId, h.recordId)
            && LastCarried(d.header.stamp, es, TenantOf, d.header.tenantName, h.tenantName)
            && LastCarried(d.header.stamp, es, AppDomainOf, d.header.appDomainName, h.appDomainName)
  {
    if es != [] {
      var n := |es| - 1;
      var front, e := es[..n], es[n];
      var s0, h := d.header.stamp, AbsorbAll(d, front).header;
      CarriedFields(d, front);
      UpdatesIffRecord(d, front, e);
      CarryStep(s0, front, e, RecordIdOf, d.header.recordId, h);
      CarryStep(s0, front, e, TenantOf, d.header.tenantName, h);
      CarryStep(s0, front, e, AppDomainOf, d.header.appDomainName, h);
      assert es == front + [e];
    }
  }

  /** The status is written once, by the first row that carries one. */
  lemma {:induction false} StatusIsOfFirstReport(d: DeviceView, es: seq<Entry>)
    requires !d.statusReported
    ensures var r := AbsorbAll(d, es);
            && (r.statusReported <==> exists i :: 0 <= i < |es| && es[i].status.Some?)
            && (!r.statusReported ==> r.status == d.status)
            && (r.statusReported ==> exists i :: && 0 <= i < |es| && es[i].status == Some(r.status)
                                                 && forall j :: 0 <= j < i ==> es[j].status == None)
  {
    if es != [] {
      var n := |es| - 1;
      StatusIsOfFirstReport(d, es[..n]);
      assert forall j :: 0 <= j < n ==> es[..n][j] == es[j];
      if AbsorbAll(d, es[..n]).statusReported {
        var i :| && 0 <= i < n && es[..n][i].status == Some(AbsorbAll(d, es[..n]).status)
                 && forall j :: 0 <= j < i ==> es[..n][j].status == None;
        assert es[i].status == Some(AbsorbAll(d, es).status);
      } else if es[n].status.Some? {
        assert es[n].status == Some(AbsorbAll(d, es).status);
      }
    }
  }

  function HistoriesOf(es: seq<Entry>): (items: seq<HistoryItem>)
    ensures |items| == |es| && forall i :: 0 <= i < |es| ==> items[i] == HistoryOf(es[i])
  {
    seq(|es|, i requires 0 <= i < |es| => HistoryOf(es[i]))
  }

  function SamplesOf(es: seq<Entry>): (samples: seq<Sample>)
    ensures |samples| == |es|
    ensures forall i :: 0 <= i < |es| ==> samples[i] == Sample(es[i].metrics, es[i].header.stamp)
  {
    seq(|es|, i requires 0 <= i < |es| => Sample(es[i].metrics, es[i].header.stamp))
  }

  /** History, record count and panel account for every row, in order; nothing else changes. */
  lemma {:induction false} NothingIsLost(d: DeviceView, es: seq<Entry>)
    ensures var r := AbsorbAll(d, es);
            && r.history == d.history + HistoriesOf(es)
            && r.recordCount == d.recordCount + |es|
            && r.panel == MergeSamples(d.panel, SamplesOf(es))
            && r.identity == d.identity && r.ruleCount == d.ruleCount
  {
    if es != [] {
      var n := |es| - 1;
      NothingIsLost(d, es[..n]);
      assert HistoriesOf(es) == HistoriesOf(es[..n]) + [HistoryOf(es[n])];
      assert SamplesOf(es)[..n] == SamplesOf(es[..n]);
    }
  }

  // ----- The device object -----

  class CompanyDevice {
    const identity: Identity
    ghost const slot: nat  // the device's position in the list, which tells objects apart
    var header: Header
    var status: string
    var statusReported: bool
    var metrics: seq<Metric>
    var metricTimestamps: map<string, int>
    var recordCount: nat
    var history: seq<HistoryItem>
    var ruleCount: nat

    ghost function View(): DeviceView
      reads this
    {
      DeviceView(identity, header, status, statusReported, Panel(metrics, metricTimestamps),
                 recordCount, history, ruleCount)
    }

    constructor (identity: Identity, header: Header, ghost slot: nat)
      ensures this.slot == slot && View() == NewDevice(identity, header)
      ensures this.identity == identity
    {
      this.identity, this.slot, this.header := identity, slot, header;
      status, statusReported := "unknown", false;
      metrics, metricTimestamps := [], map[];
      recordCount, history, ruleCount := 0, [], 0;
    }

    method MergeMetrics(ms: seq<Metric>, stamp: int)
      modifies this`metrics, this`metricTimestamps
      ensures Panel(metrics, metricTimestamps) == MergeAll(old(Panel(metrics, metricTimestamps)), ms, stamp)
    {
      var k := 0;
      while k < |ms|
        invariant k <= |ms|
        invariant Panel(metrics, metricTimestamps) == MergeAll(old(Panel(metrics, metricTimestamps)), ms[..k], stamp)
      {
        assert ms[..k + 1][..k] == ms[..k];
        var m := ms[k];
        k := k + 1;
        if m.name == "" { continue; }
        if m.name in metricTimestamps && metricTimestamps[m.name] >= stamp { continue; }
        metricTimestamps := metricTimestamps[m.name := stamp];
        var index := FindMetric(metrics, m.name);
        if index == |metrics| {
          metrics := metrics + [m];
        } else {
          metrics := metrics[index := m];
        }
      }
      assert ms[..k] == ms;
    }

    method AbsorbRow(e: Entry)
      modifies this
      ensures View() == Absorb(old(View()), e)
    {
      recordCount := recordCount + 1;
      history := history + [HistoryOf(e)];
      var stamp := e.header.stamp;
      if stamp != 0 && (header.stamp == 0 || stamp > header.stamp) {
        header := Header(stamp, Or(e.header.recordId, header.recordId), e.header.parentContainer,
                         e.header.contentFormat, e.header.payloadSummary,
                         Or(e.header.tenantName, header.tenantName), Or(e.header.appDomainName, header.appDomainName));
      }
      if e.status.Some? && !statusReported {
        status, statusReported := e.status.value, true;
      }
      MergeMetrics(e.metrics, stamp);
      if |metrics| > MAX_DISPLAY_METRICS { metrics := metrics[..MAX_DISPLAY_METRICS]; }
    }

    method AddRule()
      modifies this`ruleCount
      ensures View() == old(View()).(ruleCount := old(ruleCount) + 1)
    {
      ruleCount := ruleCount + 1;
    }

    method ReplaceHistory(sorted: seq<HistoryItem>)
      modifies this`history
      ensures View() == old(View()).(history := sorted)
    {
      history := sorted;
    }
  }
}

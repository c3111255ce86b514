/** port_risk/models/risk.py: the downtime a hazard imposes on each trade flow, its
    per-country network totals, and the blend of import and export risk per country. */
module Risk {
  import opened Tables
  import opened PortMerge
  import opened Trade
  import Strings
  import Dicts

  /** The downtime columns of the reshaped port table that a hazard may name. */
  const HazardNames: seq<string> := DowntimeColumns + ["downtime_total"]

  /** The position of a hazard among the downtime columns. */
  function HazardIndex(hazard: string): (r: Option<nat>)
    ensures r.Some? <==> hazard in HazardNames
    ensures r.Some? ==> r.value < 7 && HazardNames[r.value] == hazard
  {
    if hazard == HazardNames[0] then Some(0)
    else if hazard == HazardNames[1] then Some(1)
    else if hazard == HazardNames[2] then Some(2)
    else if hazard == HazardNames[3] then Some(3)
    else if hazard == HazardNames[4] then Some(4)
    else if hazard == HazardNames[5] then Some(5)
    else if hazard == HazardNames[6] then Some(6)
    else None
  }

  /** The value of downtime column `j` of a port row. */
  function Downtime(p: PortDowntime, j: nat): real
    requires j < 7
  {
    if j < 6 then HazardColumn(p, j) else p.total
  }

  /** A trade flow with its hazard downtime and the columns computed from it. The
      `iso3Sector` column is absent until `merge_risk` adds it. */
  datatype TradeRisk = TradeRisk(
    flow: TradeFlow, downtime: real,
    qAtRisk: real, vAtRisk: real, qWeighted: real, vWeighted: real,
    qNetwork: real, vNetwork: real,
    iso3Sector: Option<string>)

  /** A trade-risk table and whether it carries the sector columns. */
  datatype RiskTable = RiskTable(bySector: bool, rows: seq<TradeRisk>)

  /** Trade rows have non-zero totals, so the shares of lines 42-47 are defined. */
  predicate NonZeroTotals(t: TradeTable)
  {
    forall row :: row in t.rows ==> row.qTotal != 0.0 && row.vTotal != 0.0
  }

  function FlowId(f: TradeFlow): string { f.id }
  function DowntimeId(p: PortDowntime): string { p.port.id }

  /** The flow at risk: a flow per year scaled to the days of downtime, `flow / 365 * downtime`. */
  function FlowAtRisk(flow: real, downtime: real): real
  {
    flow / 365.0 * downtime
  }

  /** The downtime weighted by the flow's share of its total, `flow / total * downtime`. */
  function Weighted(flow: real, total: real, downtime: real): real
    requires total != 0.0
  {
    flow / total * downtime
  }

  /** One merged row, with the at-risk and weighted columns. */
  function AtRisk(x: (TradeFlow, PortDowntime), j: nat): TradeRisk
    requires j < 7 && x.0.qTotal != 0.0 && x.0.vTotal != 0.0
  {
    var f, h := x.0, Downtime(x.1, j);
    TradeRisk(f, h, FlowAtRisk(f.q, h), FlowAtRisk(f.v, h), Weighted(f.q, f.qTotal, h), Weighted(f.v, f.vTotal, h),
      0.0, 0.0, None)
  }

  /** `groupby_list`: the country, with the sector and industry when `industries` is set. */
  function RiskGroup(industries: bool, r: TradeRisk): GroupKey
  {
    if industries then RowGroup(r.flow) else GroupKey(r.flow.iso3, "", "")
  }

  function RiskGroupFn(industries: bool): TradeRisk -> GroupKey
  {
    r => RiskGroup(industries, r)
  }

  function QWeighted(r: TradeRisk): real { r.qWeighted }
  function VWeighted(r: TradeRisk): real { r.vWeighted }

  /** A row of `network_trade_risk`: a group and its summed weighted downtimes. */
  datatype NetworkRisk = NetworkRisk(key: GroupKey, qNetwork: real, vNetwork: real)

  function NetworkKey(n: NetworkRisk): GroupKey { n.key }

  /** `network_trade_risk`: the weighted downtimes summed per group. */
  function NetworkTradeRisk(rows: seq<TradeRisk>, industries: bool): seq<NetworkRisk>
  {
    var keys := Distinct(Column(rows, RiskGroupFn(industries)));
    seq(|keys|, i requires 0 <= i < |keys| =>
      NetworkRisk(keys[i],
        SumWhere(rows, RiskGroupFn(industries), keys[i], QWeighted),
        SumWhere(rows, RiskGroupFn(industries), keys[i], VWeighted)))
  }

  function WithNetwork(x: (TradeRisk, NetworkRisk)): TradeRisk
  {
    x.0.(qNetwork := x.1.qNetwork, vNetwork := x.1.vNetwork)
  }

  /** The trade rows merged with the downtime of their port. */
  function MergedRisk(trade: TradeTable, risk: seq<PortDowntime>, j: nat): seq<TradeRisk>
    requires j < 7 && NonZeroTotals(trade)
  {
    var joined := Join(trade.rows, risk, FlowId, DowntimeId);
    seq(|joined|, i requires 0 <= i < |joined| =>
      JoinMembers(trade.rows, risk, FlowId, DowntimeId, joined[i]);
      AtRisk(joined[i], j))
  }

  /** `compute_trade_risk`: merge the trade rows with the hazard column of the port
      risk on `id`, add the at-risk and weighted columns, and broadcast the group sums
      of the weighted columns back onto every row. The hazard `id` selects the `id`
      column twice, and merging on a label that is not unique is a ValueError. Any other
      name outside the downtime columns is a KeyError, and so is grouping by sector a
      table without one. */
  function ComputeTradeRisk(trade: TradeTable, risk: seq<PortDowntime>, hazard: string, industries: bool): (r: Result<RiskTable>)
    requires NonZeroTotals(trade)
    ensures r.Ok? <==> hazard in HazardNames && (industries ==> trade.bySector)
    ensures r.Ok? ==> r.value.bySector == trade.bySector
    ensures hazard == "id" ==> r == Err(ValueError("The column label 'id' is not unique"))
    ensures hazard != "id" && hazard !in HazardNames ==> r == Err(KeyError(hazard))
    ensures hazard in HazardNames && industries && !trade.bySector ==> r == Err(KeyError("sector"))
  {
    if hazard == "id" then Err(ValueError("The column label 'id' is not unique"))
    else match HazardIndex(hazard)
      case None => Err(KeyError(hazard))
      case Some(j) =>
        if industries && !trade.bySector then Err(KeyError("sector"))
        else
          var rows := MergedRisk(trade, risk, j);
          var network := NetworkTradeRisk(rows, industries);
          Ok(RiskTable(trade.bySector, Column(Join(rows, network, RiskGroupFn(industries), NetworkKey), WithNetwork)))
  }

  /** Each merged row comes from one trade row and one port row with the same id:
      trade rows whose id is absent from the port table are dropped. */
  lemma MergedRiskRow(trade: TradeTable, risk: seq<PortDowntime>, j: nat, r: TradeRisk)
    requires j < 7 && NonZeroTotals(trade)
    requires r in MergedRisk(trade, risk, j)
    ensures r.flow in trade.rows
    ensures exists p :: p in risk && p.port.id == r.flow.id && r == AtRisk((r.flow, p), j)
  {
    var joined := Join(trade.rows, risk, FlowId, DowntimeId);
    var i :| 0 <= i < |joined| && MergedRisk(trade, risk, j)[i] == r;
    JoinMembers(trade.rows, risk, FlowId, DowntimeId, joined[i]);
  }

  /** The grouping keys of the network table are unique and cover every row. */
  lemma NetworkCovers(rows: seq<TradeRisk>, industries: bool)
    ensures NoDuplicates(Column(NetworkTradeRisk(rows, industries), NetworkKey))
    ensures forall r :: r in rows ==> RiskGroup(industries, r) in Column(NetworkTradeRisk(rows, industries), NetworkKey)
  {
    var keys := Distinct(Column(rows, RiskGroupFn(industries)));
    assert Column(NetworkTradeRisk(rows, industries), NetworkKey) == keys;
    forall r | r in rows ensures RiskGroup(industries, r) in keys {
      ColumnMembers(rows, RiskGroupFn(industries), RiskGroup(industries, r));
    }
  }

  /** The broadcast merge keeps every row, in order, and gives each row the sums of the
      weighted downtimes over its group. */
  lemma Broadcast(trade: TradeTable, risk: seq<PortDowntime>, hazard: string, industries: bool)
    requires NonZeroTotals(trade)
    requires ComputeTradeRisk(trade, risk, hazard, industries).Ok?
    ensures var rows := MergedRisk(trade, risk, HazardIndex(hazard).value);
      var out := ComputeTradeRisk(trade, risk, hazard, industries).value.rows;
      && |out| == |rows|
      && forall i :: 0 <= i < |out| ==>
        && out[i] == rows[i].(qNetwork := out[i].qNetwork, vNetwork := out[i].vNetwork)
        && out[i].qNetwork == SumWhere(rows, RiskGroupFn(industries), RiskGroup(industries, rows[i]), QWeighted)
        && out[i].vNetwork == SumWhere(rows, RiskGroupFn(industries), RiskGroup(industries, rows[i]), VWeighted)
  {
    var rows := MergedRisk(trade, risk, HazardIndex(hazard).value);
    var network := NetworkTradeRisk(rows, industries);
    var joined := Join(rows, network, RiskGroupFn(industries), NetworkKey);
    NetworkCovers(rows, industries);
    JoinKeepsAll(rows, network, RiskGroupFn(industries), NetworkKey);
    assert Column(joined, Fst) == rows;
    forall i | 0 <= i < |joined|
      ensures joined[i].1.qNetwork == SumWhere(rows, RiskGroupFn(industries), RiskGroup(industries, rows[i]), QWeighted)
      ensures joined[i].1.vNetwork == SumWhere(rows, RiskGroupFn(industries), RiskGroup(industries, rows[i]), VWeighted)
    {
      JoinMembers(rows, network, RiskGroupFn(industries), NetworkKey, joined[i]);
      assert joined[i].0 == rows[i];
    }
  }

  /** Each output row is a merged row with its network columns filled in. */
  lemma ComputedRow(trade: TradeTable, risk: seq<PortDowntime>, hazard: string, industries: bool, r: TradeRisk)
    requires NonZeroTotals(trade)
    requires ComputeTradeRisk(trade, risk, hazard, industries).Ok?
    requires r in ComputeTradeRisk(trade, risk, hazard, industries).value.rows
    ensures r.(qNetwork := 0.0, vNetwork := 0.0) in MergedRisk(trade, risk, HazardIndex(hazard).value)
  {
    var j := HazardIndex(hazard).value;
    var rows := MergedRisk(trade, risk, j);
    var network := NetworkTradeRisk(rows, industries);
    var joined := Join(rows, network, RiskGroupFn(industries), NetworkKey);
    ColumnMembers(joined, WithNetwork, r);
    var x :| x in joined && r == WithNetwork(x);
    JoinMembers(rows, network, RiskGroupFn(industries), NetworkKey, x);
    MergedRiskRow(trade, risk, j, x.0);
  }

  /** Each output row: `q_flow_at_risk = q_sea_flow / 365 * hazard` and
      `downtime_q_weighted = q_sea_flow / q_sea_flow_total * hazard` (likewise for value),
      where `hazard` is the chosen downtime of a port row with the flow's id; trade rows
      whose id is absent from the port table are dropped. */
  lemma RowColumns(trade: TradeTable, risk: seq<PortDowntime>, hazard: string, industries: bool, r: TradeRisk)
    requires NonZeroTotals(trade)
    requires ComputeTradeRisk(trade, risk, hazard, industries).Ok?
    requires r in ComputeTradeRisk(trade, risk, hazard, industries).value.rows
    ensures r.flow in trade.rows
    ensures exists p :: p in risk && p.port.id == r.flow.id && r.downtime == Downtime(p, HazardIndex(hazard).value)
    ensures r.qAtRisk == FlowAtRisk(r.flow.q, r.downtime) && r.vAtRisk == FlowAtRisk(r.flow.v, r.downtime)
    ensures r.flow.qTotal != 0.0 && r.qWeighted == Weighted(r.flow.q, r.flow.qTotal, r.downtime)
    ensures r.flow.vTotal != 0.0 && r.vWeighted == Weighted(r.flow.v, r.flow.vTotal, r.downtime)
  {
    var j := HazardIndex(hazard).value;
    var m := r.(qNetwork := 0.0, vNetwork := 0.0);
    ComputedRow(trade, risk, hazard, industries, r);
    MergedRiskRow(trade, risk, j, m);
    var p :| p in risk && p.port.id == m.flow.id && m == AtRisk((m.flow, p), j);
  }

  /** A share of a positive total, applied to a non-negative downtime, lies between 0
      and that downtime. */
  lemma WeightedBounds(trade: TradeTable, risk: seq<PortDowntime>, hazard: string, industries: bool, r: TradeRisk)
    requires NonZeroTotals(trade)
    requires ComputeTradeRisk(trade, risk, hazard, industries).Ok?
    requires r in ComputeTradeRisk(trade, risk, hazard, industries).value.rows
    requires 0.0 <= r.flow.q <= r.flow.qTotal && r.downtime >= 0.0
    ensures 0.0 <= r.qWeighted <= r.downtime
  {
    RowColumns(trade, risk, hazard, industries, r);
    ShareBounds(r.flow.q, r.flow.qTotal, r.downtime);
  }

  lemma ShareBounds(q: real, total: real, h: real)
    requires 0.0 <= q <= total && total != 0.0 && h >= 0.0
    ensures 0.0 <= Weighted(q, total, h) <= h
  {
    assert 0.0 <= q / total <= 1.0;
    assert q / total * h <= 1.0 * h;
  }

  // merge_risk

  /** The `iso3_sector` value of a row: its country and sector joined by "_". */
  function Iso3Sector(f: TradeFlow): string { f.iso3 + "_" + f.sector }

  /** The rows with `frame["iso3_sector"] = frame["iso3"] + "_" + frame["sector"]`. */
  function WithIso3Sector(rows: seq<TradeRisk>): (r: seq<TradeRisk>)
    ensures |r| == |rows|
    ensures forall i :: 0 <= i < |rows| ==> r[i] == rows[i].(iso3Sector := Some(Iso3Sector(rows[i].flow)))
  {
    seq(|rows|, i requires 0 <= i < |rows| => rows[i].(iso3Sector := Some(Iso3Sector(rows[i].flow))))
  }

  /** Setting the column twice is setting it once. */
  lemma WithIso3SectorTwice(rows: seq<TradeRisk>)
    ensures WithIso3Sector(WithIso3Sector(rows)) == WithIso3Sector(rows)
  {
  }

  /** The index of the per-country series: `iso3`, or `iso3_sector` by sector. */
  function RiskKey(industries: bool, r: TradeRisk): string
  {
    if !industries then r.flow.iso3
    else match r.iso3Sector
      case Some(s) => s
      case None => ""
  }

  function RiskKeyFn(industries: bool): TradeRisk -> string
  {
    r => RiskKey(industries, r)
  }

  function IsDomestic(r: TradeRisk): bool { r.flow.iso3 == r.flow.portIso3 }
  function IsForeign(r: TradeRisk): bool { r.flow.iso3 != r.flow.portIso3 }

  /** `col_name`: the weighted downtime of quantity or of value. */
  function WeightedOf(quantity: bool): TradeRisk -> real
  {
    if quantity then QWeighted else VWeighted
  }

  function QTotalOf(r: TradeRisk): real { r.flow.qTotal }
  function VTotalOf(r: TradeRisk): real { r.flow.vTotal }

  /** `sea_flow_total`: the total quantity or value of a row's group. */
  function TotalOf(quantity: bool): TradeRisk -> real
  {
    if quantity then QTotalOf else VTotalOf
  }

  /** After `drop_duplicates`, a key still listed twice: its rows disagree on the total,
      and aligning the series on that key fails. */
  predicate ConflictingTotals(rows: seq<TradeRisk>, key: TradeRisk -> string, total: TradeRisk -> real)
  {
    exists i, j :: 0 <= i < j < |rows| && key(rows[i]) == key(rows[j]) && total(rows[i]) != total(rows[j])
  }

  /** The total of the first row under key `k`; 0 when no row has it (NaN replaced by 0). */
  function FirstTotal(rows: seq<TradeRisk>, key: TradeRisk -> string, k: string, total: TradeRisk -> real): real
  {
    if rows == [] then 0.0
    else if key(rows[0]) == k then total(rows[0])
    else FirstTotal(rows[1..], key, k, total)
  }

  function RiskId(r: TradeRisk): string { r.flow.id }

  /** The port ids of the rows under key `k`. */
  function IdsUnder(rows: seq<TradeRisk>, key: TradeRisk -> string, k: string): seq<string>
  {
    if rows == [] then []
    else IdsUnder(rows[..|rows| - 1], key, k) + (if key(rows[|rows| - 1]) == k then [rows[|rows| - 1].flow.id] else [])
  }

  /** `groupby(iso3)["id"].nunique()` for the key `k`, 0 when absent. */
  function PortCount(rows: seq<TradeRisk>, key: TradeRisk -> string, k: string): nat
  {
    |Distinct(IdsUnder(rows, key, k))|
  }

  /** `total_risk`: the import and export risks weighted by the import and export
      volumes. When both volumes are 0 the division is 0/0 and the cell is NaN. */
  function Blend(importRisk: real, exportRisk: real, imports: real, exports: real): (r: Float)
    ensures r.NaN? <==> imports + exports == 0.0
  {
    if imports + exports == 0.0 then NaN
    else Num(importRisk * imports / (imports + exports) + exportRisk * exports / (imports + exports))
  }

  /** A row of the compounded risk table. `split` holds the recovered `iso3` and
      `sector` columns when the analysis is by sector. */
  datatype GlobalRisk = GlobalRisk(
    key: string,
    domesticImport: real, foreignExport: real, domesticExport: real, foreignImport: real,
    imports: real, exports: real, nPortsImport: nat, nPortsExport: nat,
    totalImport: real, totalExport: real, totalRisk: Float,
    split: Option<(string, string)>)

  /** The row of key `k` once every series is aligned on the key and NaN replaced by 0. */
  function GlobalRow(
    imports: seq<TradeRisk>, exports: seq<TradeRisk>, quantity: bool, industries: bool, k: string): GlobalRisk
    requires industries ==> |Strings.Split(k, '_')| >= 2
  {
    var key, w, total := RiskKeyFn(industries), WeightedOf(quantity), TotalOf(quantity);
    var di := SumWhere(Filter(imports, IsDomestic), key, k, w);
    var fi := SumWhere(Filter(imports, IsForeign), key, k, w);
    var de := SumWhere(Filter(exports, IsDomestic), key, k, w);
    var fe := SumWhere(Filter(exports, IsForeign), key, k, w);
    var im := FirstTotal(imports, key, k, total);
    var ex := FirstTotal(exports, key, k, total);
    GlobalRisk(k, di, fe, de, fi, im, ex, PortCount(imports, key, k), PortCount(exports, key, k),
      di + fi, de + fe, Blend(di + fi, de + fe, im, ex),
      if industries then Some((Strings.Split(k, '_')[0], Strings.Split(k, '_')[1])) else None)
  }

  /** The keys of the compounded table: every key of either side, once. */
  function GlobalKeys(imports: seq<TradeRisk>, exports: seq<TradeRisk>, industries: bool): seq<string>
  {
    Distinct(Column(imports, RiskKeyFn(industries)) + Column(exports, RiskKeyFn(industries)))
  }

  predicate HasIso3Sector(r: TradeRisk) { r.iso3Sector.Some? }

  /** `merge_risk` on the frames once `iso3_sector` is in place: the four domestic and
      foreign sums, the import and export volumes, the port counts, then the totals,
      the blend and, by sector, the split of the key. */
  function MergeRiskRows(imports: seq<TradeRisk>, exports: seq<TradeRisk>, quantity: bool, industries: bool)
    : (r: Result<seq<GlobalRisk>>)
    ensures r.Ok? ==> |r.value| == |GlobalKeys(imports, exports, industries)|
    ensures r.Ok? ==> NoDuplicates(Column(r.value, GlobalKeyOf))
  {
    var key := RiskKeyFn(industries);
    if industries && exists x :: x in imports + exports && !HasIso3Sector(x) then Err(KeyError("iso3_sector"))
    else if ConflictingTotals(imports, key, TotalOf(quantity)) || ConflictingTotals(exports, key, TotalOf(quantity)) then
      Err(InvalidIndexError)
    else
      var keys := GlobalKeys(imports, exports, industries);
      if industries && exists k :: k in keys && |Strings.Split(k, '_')| < 2 then Err(IndexError)
      else
        var rows := seq(|keys|, i requires 0 <= i < |keys| => GlobalRow(imports, exports, quantity, industries, keys[i]));
        assert Column(rows, GlobalKeyOf) == keys;
        Ok(rows)
  }

  function GlobalKeyOf(g: GlobalRisk): string { g.key }

  /** Every row of a successful merge is the row of one of its keys. */
  lemma GlobalRowOf(imports: seq<TradeRisk>, exports: seq<TradeRisk>, quantity: bool, industries: bool, g: GlobalRisk)
    requires MergeRiskRows(imports, exports, quantity, industries).Ok?
    requires g in MergeRiskRows(imports, exports, quantity, industries).value
    ensures g.key in GlobalKeys(imports, exports, industries)
    ensures industries ==> |Strings.Split(g.key, '_')| >= 2
    ensures g == GlobalRow(imports, exports, quantity, industries, g.key)
  {
  }

  /** One row per key found on either side, and none other. */
  lemma GlobalRowsCoverKeys(imports: seq<TradeRisk>, exports: seq<TradeRisk>, quantity: bool, industries: bool, k: string)
    requires MergeRiskRows(imports, exports, quantity, industries).Ok?
    ensures k in Column(MergeRiskRows(imports, exports, quantity, industries).value, GlobalKeyOf) <==>
      (exists x :: x in imports && RiskKey(industries, x) == k) || (exists x :: x in exports && RiskKey(industries, x) == k)
  {
    var key := RiskKeyFn(industries);
    var rows := MergeRiskRows(imports, exports, quantity, industries).value;
    var keys := GlobalKeys(imports, exports, industries);
    assert Column(rows, GlobalKeyOf) == keys;
    ColumnMembers(imports, key, k);
    ColumnMembers(exports, key, k);
  }

  /** Domestic and foreign rows partition each side: the total import (export) risk of
      a key is the weighted downtime summed over all its import (export) rows. */
  lemma TotalRiskPartition(imports: seq<TradeRisk>, exports: seq<TradeRisk>, quantity: bool, industries: bool, g: GlobalRisk)
    requires MergeRiskRows(imports, exports, quantity, industries).Ok?
    requires g in MergeRiskRows(imports, exports, quantity, industries).value
    ensures g.totalImport == SumWhere(imports, RiskKeyFn(industries), g.key, WeightedOf(quantity))
    ensures g.totalExport == SumWhere(exports, RiskKeyFn(industries), g.key, WeightedOf(quantity))
    ensures g.totalImport == g.domesticImport + g.foreignImport && g.totalExport == g.domesticExport + g.foreignExport
  {
    GlobalRowOf(imports, exports, quantity, industries, g);
    SumWherePartition(imports, IsDomestic, IsForeign, RiskKeyFn(industries), g.key, WeightedOf(quantity));
    SumWherePartition(exports, IsDomestic, IsForeign, RiskKeyFn(industries), g.key, WeightedOf(quantity));
  }

  /** Without conflicting totals, the first total under a key is the total of every
      row under it. */
  lemma {:induction false} FirstTotalOfAll(rows: seq<TradeRisk>, key: TradeRisk -> string, k: string, total: TradeRisk -> real)
    requires !ConflictingTotals(rows, key, total)
    ensures forall x :: x in rows && key(x) == k ==> FirstTotal(rows, key, k, total) == total(x)
    ensures (forall x :: x in rows ==> key(x) != k) ==> FirstTotal(rows, key, k, total) == 0.0
  {
    if rows != [] {
      assert !ConflictingTotals(rows[1..], key, total) by {
        forall i, j | 0 <= i < j < |rows[1..]| && key(rows[1..][i]) == key(rows[1..][j])
          ensures total(rows[1..][i]) == total(rows[1..][j])
        {
          assert rows[1..][i] == rows[i + 1] && rows[1..][j] == rows[j + 1];
        }
      }
      FirstTotalOfAll(rows[1..], key, k, total);
      forall x | x in rows && key(x) == k ensures FirstTotal(rows, key, k, total) == total(x) {
        var i :| 0 <= i < |rows| && rows[i] == x;
        if i > 0 {
          assert rows[1..][i - 1] == x;
        }
      }
      assert forall x :: x in rows[1..] ==> x in rows;
    }
  }

  /** `imports` and `exports` of a key are the group total of its rows, 0 where the side has none. */
  lemma VolumesAreTotals(imports: seq<TradeRisk>, exports: seq<TradeRisk>, quantity: bool, industries: bool, g: GlobalRisk)
    requires MergeRiskRows(imports, exports, quantity, industries).Ok?
    requires g in MergeRiskRows(imports, exports, quantity, industries).value
    ensures forall x :: x in imports && RiskKey(industries, x) == g.key ==> g.imports == TotalOf(quantity)(x)
    ensures forall x :: x in exports && RiskKey(industries, x) == g.key ==> g.exports == TotalOf(quantity)(x)
    ensures (forall x :: x in imports ==> RiskKey(industries, x) != g.key) ==> g.imports == 0.0
    ensures (forall x :: x in exports ==> RiskKey(industries, x) != g.key) ==> g.exports == 0.0
  {
    GlobalRowOf(imports, exports, quantity, industries, g);
    FirstTotalOfAll(imports, RiskKeyFn(industries), g.key, TotalOf(quantity));
    FirstTotalOfAll(exports, RiskKeyFn(industries), g.key, TotalOf(quantity));
  }

  lemma {:induction false} IdsUnderMembers(rows: seq<TradeRisk>, key: TradeRisk -> string, k: string, id: string)
    ensures id in IdsUnder(rows, key, k) <==> exists x :: x in rows && key(x) == k && x.flow.id == id
  {
    if rows != [] {
      var rs, y := rows[..|rows| - 1], rows[|rows| - 1];
      IdsUnderMembers(rs, key, k, id);
      assert forall x :: x in rows <==> x in rs || x == y;
    }
  }

  /** The port counts are the numbers of distinct port ids among a key's rows. */
  lemma PortCounts(imports: seq<TradeRisk>, exports: seq<TradeRisk>, quantity: bool, industries: bool, g: GlobalRisk)
    requires MergeRiskRows(imports, exports, quantity, industries).Ok?
    requires g in MergeRiskRows(imports, exports, quantity, industries).value
    ensures g.nPortsImport == |set x | x in imports && RiskKey(industries, x) == g.key :: x.flow.id|
    ensures g.nPortsExport == |set x | x in exports && RiskKey(industries, x) == g.key :: x.flow.id|
  {
    GlobalRowOf(imports, exports, quantity, industries, g);
    PortCountIsIds(imports, industries, g.key);
    PortCountIsIds(exports, industries, g.key);
  }

  lemma PortCountIsIds(rows: seq<TradeRisk>, industries: bool, k: string)
    ensures PortCount(rows, RiskKeyFn(industries), k) == |set x | x in rows && RiskKey(industries, x) == k :: x.flow.id|
  {
    var key := RiskKeyFn(industries);
    var ids := IdsUnder(rows, key, k);
    DistinctCount(ids);
    forall id ensures id in ids <==> id in (set x | x in rows && RiskKey(industries, x) == k :: x.flow.id) {
      IdsUnderMembers(rows, key, k, id);
    }
    assert (set id | id in ids) == (set x | x in rows && RiskKey(industries, x) == k :: x.flow.id);
  }

  /** With non-negative volumes and some trade, `total_risk` lies between the import
      and the export risk: a convex combination weighted by the volumes. */
  lemma BlendBetween(importRisk: real, exportRisk: real, imports: real, exports: real)
    requires imports >= 0.0 && exports >= 0.0 && imports + exports > 0.0
    ensures Blend(importRisk, exportRisk, imports, exports).Num?
    ensures var t := Blend(importRisk, exportRisk, imports, exports).value;
      (importRisk <= exportRisk ==> importRisk <= t <= exportRisk)
      && (exportRisk <= importRisk ==> exportRisk <= t <= importRisk)
  {
    var s := imports + exports;
    var a, b := imports / s, exports / s;
    assert a + b == 1.0;
    assert importRisk * imports / s == importRisk * a;
    assert exportRisk * exports / s == exportRisk * b;
    var t := importRisk * a + exportRisk * b;
    var d := exportRisk - importRisk;
    assert t == importRisk + d * b;
    assert t == exportRisk - d * a;
    if d >= 0.0 {
      MulNonNegative(d, a);
      MulNonNegative(d, b);
    } else {
      MulNonNegative(-d, a);
      MulNonNegative(-d, b);
    }
  }

  lemma MulNonNegative(x: real, y: real)
    requires x >= 0.0 && y >= 0.0
    ensures x * y >= 0.0
  {
  }

  /** The blended risk of every key, and the NaN left where a key has neither imports
      nor exports: the NaN clean-up ran before the division. */
  lemma TotalRiskOfKey(imports: seq<TradeRisk>, exports: seq<TradeRisk>, quantity: bool, industries: bool, g: GlobalRisk)
    requires MergeRiskRows(imports, exports, quantity, industries).Ok?
    requires g in MergeRiskRows(imports, exports, quantity, industries).value
    ensures g.totalRisk == Blend(g.totalImport, g.totalExport, g.imports, g.exports)
    ensures g.totalRisk.NaN? <==> g.imports + g.exports == 0.0
  {
    GlobalRowOf(imports, exports, quantity, industries, g);
    GlobalRowBlends(imports, exports, quantity, industries, g.key);
  }

  lemma GlobalRowBlends(imports: seq<TradeRisk>, exports: seq<TradeRisk>, quantity: bool, industries: bool, k: string)
    requires industries ==> |Strings.Split(k, '_')| >= 2
    ensures var g := GlobalRow(imports, exports, quantity, industries, k);
      g.totalRisk == Blend(g.totalImport, g.totalExport, g.imports, g.exports)
  {
  }

  /** By sector, a key built as `iso3 + "_" + sector` splits back into `iso3` and
      `sector` whenever neither holds a "_". */
  lemma SplitRecovers(imports: seq<TradeRisk>, exports: seq<TradeRisk>, quantity: bool, g: GlobalRisk, f: TradeFlow)
    requires MergeRiskRows(imports, exports, quantity, true).Ok?
    requires g in MergeRiskRows(imports, exports, quantity, true).value
    requires g.key == Iso3Sector(f) && '_' !in f.iso3 && '_' !in f.sector
    ensures g.split == Some((f.iso3, f.sector))
  {
    GlobalRowOf(imports, exports, quantity, true, g);
    Strings.SplitPair(f.iso3, f.sector, '_');
  }

  /** The columns of the compounded table, given the name of the export port count. */
  function GlobalColumns(industries: bool, exportCountName: string): seq<string>
  {
    [if industries then "iso3_sector" else "iso3",
     "domestic_import_risk", "foreign_export_risk", "domestic_export_risk", "foreign_import_risk",
     "imports", "exports", "n_ports_import", exportCountName,
     "total_import_risk", "total_export_risk", "total_risk"]
    + (if industries then ["iso3", "sector"] else [])
  }

  /** The name lines 157-158 give the export port count. */
  const ExportCountAsWritten: string := "n_ports_import"

  /** The name evidently meant for it. */
  const ExportCountIntended: string := "n_ports_export"

  /** As written, the export port count takes the import count's name: the table has two
      columns called `n_ports_import`, and neither count is addressable on its own. */
  lemma PortCountNamesCollide(industries: bool)
    ensures !NoDuplicates(GlobalColumns(industries, ExportCountAsWritten))
  {
    assert GlobalColumns(industries, ExportCountAsWritten)[7] == GlobalColumns(industries, ExportCountAsWritten)[8];
  }

  /** With the intended name every column of the compounded table is distinct. */
  lemma GlobalColumnsDistinct(industries: bool)
    ensures NoDuplicates(GlobalColumns(industries, ExportCountIntended))
  {
  }

  /** A trade-risk frame that `merge_risk` updates in place. */
  class RiskFrame {
    var table: RiskTable

    constructor (t: RiskTable)
      ensures table == t
    {
      table := t;
    }
  }

  /** The frame once `iso3_sector` has been set on it, when grouping by sector. */
  function FrameAfter(industries: bool, t: RiskTable): RiskTable
  {
    if industries && t.bySector then t.(rows := WithIso3Sector(t.rows)) else t
  }

  lemma FrameAfterTwice(industries: bool, t: RiskTable)
    ensures FrameAfter(industries, FrameAfter(industries, t)) == FrameAfter(industries, t)
  {
    WithIso3SectorTwice(t.rows);
  }

  /** `merge_risk`: by sector, first set `iso3_sector` on the import frame and then on
      the export frame (a frame without a sector column raises KeyError at that point,
      the import frame possibly already updated), then compound the two frames. The
      frames may be one and the same. */
  method MergeRisk(importRisk: RiskFrame, exportRisk: RiskFrame, quantity: bool, industries: bool)
    returns (r: Result<seq<GlobalRisk>>)
    modifies importRisk, exportRisk
    ensures importRisk.table == FrameAfter(industries, old(importRisk.table))
    ensures exportRisk.table ==
      if industries && !old(importRisk.table.bySector) then old(exportRisk.table)
      else FrameAfter(industries, old(exportRisk.table))
    ensures r ==
      if industries && !(old(importRisk.table.bySector) && old(exportRisk.table.bySector)) then Err(KeyError("sector"))
      else MergeRiskRows(importRisk.table.rows, exportRisk.table.rows, quantity, industries)
  {
    if industries {
      if !importRisk.table.bySector {
        return Err(KeyError("sector"));
      }
      FrameAfterTwice(industries, importRisk.table);
      importRisk.table := FrameAfter(industries, importRisk.table);
      if !exportRisk.table.bySector {
        return Err(KeyError("sector"));
      }
      FrameAfterTwice(industries, old(exportRisk.table));
      exportRisk.table := FrameAfter(industries, exportRisk.table);
    }
    r := MergeRiskRows(importRisk.table.rows, exportRisk.table.rows, quantity, industries);
  }

  // create_risk_dataframe

  /** A value of `risk[hazard]`: a trade-risk frame or a compounded table. */
  datatype RiskEntry = TradeRiskEntry(table: RiskTable) | GlobalRiskEntry(rows: seq<GlobalRisk>)

  /** `"sector" in k1 and "sector" in k2` */
  predicate PairBySector(k1: string, k2: string)
  {
    Strings.Contains(k1, "sector") && Strings.Contains(k2, "sector")
  }

  function Suffix(industries: bool): string
  {
    if industries then "_sector" else ""
  }

  predicate AllNonZeroTotals(trade: Dicts.Dict<string, TradeTable>)
  {
    forall j :: 0 <= j < |trade| ==> NonZeroTotals(trade[j].1)
  }

  /** What one pass of the inner loop files under `risk[hazard]`. */
  datatype PairEntries = PairEntries(
    suffix: string, importRisk: RiskTable, exportRisk: RiskTable,
    value: seq<GlobalRisk>, quantity: seq<GlobalRisk>)

  /** One pass of the inner loop at index `i`: the i-th table is the export side and the
      next one the import side. */
  function PairOutcome(trade: Dicts.Dict<string, TradeTable>, portsRisk: seq<PortDowntime>, hazard: string, i: nat)
    : Result<PairEntries>
    requires AllNonZeroTotals(trade)
  {
    if i + 1 >= |trade| then Err(IndexError)
    else
      var industries := PairBySector(trade[i].0, trade[i + 1].0);
      var e := ComputeTradeRisk(trade[i].1, portsRisk, hazard, industries);
      if e.Err? then Err(e.error)
      else
        var m := ComputeTradeRisk(trade[i + 1].1, portsRisk, hazard, industries);
        if m.Err? then Err(m.error)
        else
          var imp, exp := FrameAfter(industries, m.value), FrameAfter(industries, e.value);
          var value := MergeRiskRows(imp.rows, exp.rows, false, industries);
          if value.Err? then Err(value.error)
          else
            var quantity := MergeRiskRows(imp.rows, exp.rows, true, industries);
            if quantity.Err? then Err(quantity.error)
            else Ok(PairEntries(Suffix(industries), imp, exp, value.value, quantity.value))
  }

  /** The four insertions of one pass, in the order the source makes them. */
  function File(d: Dicts.Dict<string, RiskEntry>, p: PairEntries): Dicts.Dict<string, RiskEntry>
  {
    var d1 := Dicts.Put(d, "import" + p.suffix, TradeRiskEntry(p.importRisk));
    var d2 := Dicts.Put(d1, "export" + p.suffix, TradeRiskEntry(p.exportRisk));
    var d3 := Dicts.Put(d2, "value" + p.suffix, GlobalRiskEntry(p.value));
    Dicts.Put(d3, "quantity" + p.suffix, GlobalRiskEntry(p.quantity))
  }

  /** The number of passes of `range(0, len(trade), 2)`. */
  function Passes(n: nat): nat { (n + 1) / 2 }

  /** The outcome of every pass of the inner loop for `hazard`, the k-th at index 2k. */
  function Outcomes(trade: Dicts.Dict<string, TradeTable>, portsRisk: seq<PortDowntime>, hazard: string)
    : (r: seq<Result<PairEntries>>)
    requires AllNonZeroTotals(trade)
    ensures |r| == Passes(|trade|)
    ensures forall k :: 0 <= k < |r| ==> r[k] == PairOutcome(trade, portsRisk, hazard, 2 * k)
  {
    seq(Passes(|trade|), k requires 0 <= k => PairOutcome(trade, portsRisk, hazard, 2 * k))
  }

  /** `risk[hazard]` once the inner loop is done. */
  function HazardRisk(trade: Dicts.Dict<string, TradeTable>, portsRisk: seq<PortDowntime>, hazard: string)
    : Result<Dicts.Dict<string, RiskEntry>>
    requires AllNonZeroTotals(trade)
  {
    FoldResults(Outcomes(trade, portsRisk, hazard), [], File)
  }

  /** The entry `risk[hazard]`, or the error that stopped its inner loop. */
  function HazardEntry(trade: Dicts.Dict<string, TradeTable>, portsRisk: seq<PortDowntime>, hazard: string)
    : Result<(string, Dicts.Dict<string, RiskEntry>)>
    requires AllNonZeroTotals(trade)
  {
    match HazardRisk(trade, portsRisk, hazard)
    case Err(e) => Err(e)
    case Ok(d) => Ok((hazard, d))
  }

  /** The entry of each hazard, computed on its own. */
  function HazardEntries(trade: Dicts.Dict<string, TradeTable>, portsRisk: seq<PortDowntime>, hazards: seq<string>)
    : (r: seq<Result<(string, Dicts.Dict<string, RiskEntry>)>>)
    requires AllNonZeroTotals(trade)
    ensures |r| == |hazards|
    ensures forall h :: 0 <= h < |r| ==> r[h] == HazardEntry(trade, portsRisk, hazards[h])
  {
    seq(|hazards|, h requires 0 <= h < |hazards| => HazardEntry(trade, portsRisk, hazards[h]))
  }

  /** `risk[hazard] = d` */
  function PutEntry(
    risk: Dicts.Dict<string, Dicts.Dict<string, RiskEntry>>, entry: (string, Dicts.Dict<string, RiskEntry>))
    : Dicts.Dict<string, Dicts.Dict<string, RiskEntry>>
  {
    Dicts.Put(risk, entry.0, entry.1)
  }

  /** `risk` once the outer loop is done. */
  function CreateRiskSpec(trade: Dicts.Dict<string, TradeTable>, portsRisk: seq<PortDowntime>, hazards: seq<string>)
    : Result<Dicts.Dict<string, Dicts.Dict<string, RiskEntry>>>
    requires AllNonZeroTotals(trade)
  {
    FoldResults(HazardEntries(trade, portsRisk, hazards), [], PutEntry)
  }

  /** One pass of the inner loop at index `i` (lines 214-233 of the source, before the
      insertions): compute both trade risks and compound them by value, then by quantity,
      on frames that the first compounding updates. */
  method RunPair(trade: Dicts.Dict<string, TradeTable>, portsRisk: seq<PortDowntime>, hazard: string, i: nat)
    returns (o: Result<PairEntries>)
    requires AllNonZeroTotals(trade) && i < |trade|
    ensures o == PairOutcome(trade, portsRisk, hazard, i)
  {
    if i + 1 >= |trade| {
      return Err(IndexError);
    }
    var k1, k2 := trade[i].0, trade[i + 1].0;
    var v1, v2 := trade[i].1, trade[i + 1].1;
    var industries := Strings.Contains(k1, "sector") && Strings.Contains(k2, "sector");
    var exportTradeRisk := ComputeTradeRisk(v1, portsRisk, hazard, industries);
    if exportTradeRisk.Err? {
      return Err(exportTradeRisk.error);
    }
    var importTradeRisk := ComputeTradeRisk(v2, portsRisk, hazard, industries);
    if importTradeRisk.Err? {
      return Err(importTradeRisk.error);
    }
    var exportFrame := new RiskFrame(exportTradeRisk.value);
    var importFrame := new RiskFrame(importTradeRisk.value);
    var value := MergeRisk(importFrame, exportFrame, false, industries);
    if value.Err? {
      return Err(value.error);
    }
    var quantity := MergeRisk(importFrame, exportFrame, true, industries);
    FrameAfterTwice(industries, importTradeRisk.value);
    FrameAfterTwice(industries, exportTradeRisk.value);
    if quantity.Err? {
      return Err(quantity.error);
    }
    var sfx := if industries then "_sector" else "";
    return Ok(PairEntries(sfx, importFrame.table, exportFrame.table, value.value, quantity.value));
  }

  /** `create_risk_dataframe`: for each hazard, walk the trade tables two by two as
      (export, import), compute both trade risks, compound them by value and by
      quantity, and file the four results under names suffixed `_sector` when both
      table names mention a sector. */
  method CreateRiskDataframe(
    trade: Dicts.Dict<string, TradeTable>, portsRisk: seq<PortDowntime>, hazards: seq<string>)
    returns (r: Result<Dicts.Dict<string, Dicts.Dict<string, RiskEntry>>>)
    requires AllNonZeroTotals(trade)
    ensures r == CreateRiskSpec(trade, portsRisk, hazards)
  {
    ghost var entries := HazardEntries(trade, portsRisk, hazards);
    var risk: Dicts.Dict<string, Dicts.Dict<string, RiskEntry>> := [];
    var h := 0;
    while h < |hazards|
      invariant 0 <= h <= |hazards|
      invariant FoldResults(entries[..h], [], PutEntry) == Ok(risk)
    {
      var hazard := hazards[h];
      ghost var outcomes := Outcomes(trade, portsRisk, hazard);
      var inner: Dicts.Dict<string, RiskEntry> := [];
      var i := 0;
      ghost var k := 0;
      while i < |trade|
        invariant i == 2 * k && k <= Passes(|trade|)
        invariant FoldResults(outcomes[..k], [], File) == Ok(inner)
      {
        var pair := RunPair(trade, portsRisk, hazard, i);
        if pair.Err? {
          FoldResultsFails(outcomes, [], File, k, pair.error);
          FoldResultsFails(entries, [], PutEntry, h, pair.error);
          return Err(pair.error);
        }
        var p := pair.value;
        FoldResultsStep(outcomes, [], File, k, inner, p);
        inner := Dicts.Put(inner, "import" + p.suffix, TradeRiskEntry(p.importRisk));
        inner := Dicts.Put(inner, "export" + p.suffix, TradeRiskEntry(p.exportRisk));
        inner := Dicts.Put(inner, "value" + p.suffix, GlobalRiskEntry(p.value));
        inner := Dicts.Put(inner, "quantity" + p.suffix, GlobalRiskEntry(p.quantity));
        i, k := i + 2, k + 1;
      }
      assert outcomes[..k] == outcomes;
      FoldResultsStep(entries, [], PutEntry, h, risk, (hazard, inner));
      risk := Dicts.Put(risk, hazard, inner);
      h := h + 1;
    }
    assert entries[..h] == entries;
    return Ok(risk);
  }

  /** With an odd number of trade tables the last pass has no import partner: the inner
      loop for a hazard fails, with the index error unless an earlier pass failed first. */
  lemma OddTablesFail(trade: Dicts.Dict<string, TradeTable>, portsRisk: seq<PortDowntime>, hazard: string)
    requires AllNonZeroTotals(trade) && |trade| % 2 == 1
    ensures HazardRisk(trade, portsRisk, hazard).Err?
    ensures (forall k :: 0 <= k < |trade| / 2 ==> PairOutcome(trade, portsRisk, hazard, 2 * k).Ok?) ==>
      HazardRisk(trade, portsRisk, hazard) == Err(IndexError)
  {
    var outcomes := Outcomes(trade, portsRisk, hazard);
    var n := |outcomes| - 1;
    assert 2 * n + 1 == |trade|;
    assert outcomes[n] == PairOutcome(trade, portsRisk, hazard, 2 * n) == Err(IndexError);
    FoldLastFails(outcomes, [], File);
  }

  /** An odd number of trade tables makes `create_risk_dataframe` raise for any non-empty
      list of hazards. */
  lemma OddTablesRaise(trade: Dicts.Dict<string, TradeTable>, portsRisk: seq<PortDowntime>, hazards: seq<string>)
    requires AllNonZeroTotals(trade) && |trade| % 2 == 1 && |hazards| > 0
    ensures CreateRiskSpec(trade, portsRisk, hazards).Err?
  {
    var entries := HazardEntries(trade, portsRisk, hazards);
    OddTablesFail(trade, portsRisk, hazards[0]);
    assert entries[0].Err?;
    assert entries[..0] == [];
    FoldResultsFails(entries, [], PutEntry, 0, entries[0].error);
  }

  /** One pass files its four results under `import`, `export`, `value` and `quantity`,
      each with the pass's suffix, in that order. */
  lemma FiledKeys(p: PairEntries)
    ensures Dicts.Keys(File([], p)) == ["import" + p.suffix, "export" + p.suffix, "value" + p.suffix, "quantity" + p.suffix]
  {
    var s := p.suffix;
    assert ("import" + s)[0] == 'i' && ("export" + s)[0] == 'e';
    assert ("value" + s)[0] == 'v' && ("quantity" + s)[0] == 'q';
    Dicts.PutFourKeys("import" + s, "export" + s, "value" + s, "quantity" + s,
      TradeRiskEntry(p.importRisk), TradeRiskEntry(p.exportRisk), GlobalRiskEntry(p.value), GlobalRiskEntry(p.quantity));
  }
}

/** port_risk/preprocessing/trade.py: the per-country trade flows through each port,
    next to the country's total import flow that later serves as denominator. */
module Trade {
  import opened Tables
  import opened PortMerge
  import Dicts

  /** The country column that groups the flows: `iso3_O` (exports) or `iso3_D` (imports). */
  datatype Side = Origin | Destination

  function SideColumn(side: Side): string
  {
    match side
    case Origin => "iso3_O"
    case Destination => "iso3_D"
  }

  function Country(side: Side, e: Edge): string
  {
    match side
    case Origin => e.isoO
    case Destination => e.isoD
  }

  /** A value of `groupby_list`: the country, and the industry and sector when grouping
      by sector (both "" otherwise, where the table has no such columns). */
  datatype GroupKey = GroupKey(country: string, industries: string, sector: string)

  /** The key `[iso3] + ["id"] + rest` of the per-port group-by. */
  datatype FlowKey = FlowKey(group: GroupKey, id: string)

  function GroupOf(side: Side, bySector: bool, e: Edge): GroupKey
  {
    if bySector then GroupKey(Country(side, e), e.industries, e.sector)
    else GroupKey(Country(side, e), "", "")
  }

  function GroupFn(side: Side, bySector: bool): Edge -> GroupKey
  {
    e => GroupOf(side, bySector, e)
  }

  function FlowFn(side: Side, bySector: bool): Edge -> FlowKey
  {
    e => FlowKey(GroupOf(side, bySector, e), e.id)
  }

  function GroupOfFlowKey(k: FlowKey): GroupKey { k.group }

  function IsPortImport(e: Edge): bool { e.flow == "port_import" }
  function EdgeQ(e: Edge): real { e.q }
  function EdgeV(e: Edge): real { e.v }

  /** A row of `country_flows`: a group and its import totals. */
  datatype GroupTotal = GroupTotal(key: GroupKey, qTotal: real, vTotal: real)

  /** A row of `country_flows_total` before the merges: a (group, port) and its flows. */
  datatype FlowTotal = FlowTotal(key: FlowKey, q: real, v: real)

  /** The output row, after the rename: `iso3` is the grouping country and
      `portIso3` the country of the port. */
  datatype TradeFlow = TradeFlow(
    iso3: string, id: string, industries: string, sector: string,
    q: real, v: real, qTotal: real, vTotal: real,
    portName: string, portIso3: string, geometry: Geometry)

  /** A trade table and whether it was grouped by sector. */
  datatype TradeTable = TradeTable(bySector: bool, rows: seq<TradeFlow>)

  /** `country_flows`: the `port_import` edges, summed per group. */
  function CountryFlows(network: seq<Edge>, side: Side, bySector: bool): seq<GroupTotal>
  {
    var imports := Filter(network, IsPortImport);
    var keys := Distinct(Column(imports, GroupFn(side, bySector)));
    seq(|keys|, i requires 0 <= i < |keys| =>
      GroupTotal(keys[i],
        SumWhere(imports, GroupFn(side, bySector), keys[i], EdgeQ),
        SumWhere(imports, GroupFn(side, bySector), keys[i], EdgeV)))
  }

  /** `country_flows_total` as first grouped: every edge, whatever its flow tag,
      summed per (group, port id). */
  function CountryFlowsTotal(network: seq<Edge>, side: Side, bySector: bool): seq<FlowTotal>
  {
    var keys := Distinct(Column(network, FlowFn(side, bySector)));
    seq(|keys|, i requires 0 <= i < |keys| =>
      FlowTotal(keys[i],
        SumWhere(network, FlowFn(side, bySector), keys[i], EdgeQ),
        SumWhere(network, FlowFn(side, bySector), keys[i], EdgeV)))
  }

  function FlowGroup(f: FlowTotal): GroupKey { f.key.group }
  function TotalKey(t: GroupTotal): GroupKey { t.key }
  function PairId(p: (FlowTotal, GroupTotal)): string { p.0.key.id }
  function PortId(p: Port): string { p.id }

  /** One joined row, with `{iso3: "iso3", "iso3": "port_iso3"}` applied at once. */
  function Renamed(x: ((FlowTotal, GroupTotal), Port)): TradeFlow
  {
    var f, t, p := x.0.0, x.0.1, x.1;
    TradeFlow(f.key.group.country, f.key.id, f.key.group.industries, f.key.group.sector,
      f.q, f.v, t.qTotal, t.vTotal, p.portName, p.iso3, p.geometry)
  }

  /** The flows merged with their group totals on `groupby_list`. */
  function WithTotals(network: seq<Edge>, side: Side, bySector: bool): seq<(FlowTotal, GroupTotal)>
  {
    Join(CountryFlowsTotal(network, side, bySector), CountryFlows(network, side, bySector), FlowGroup, TotalKey)
  }

  /** `preprocess_trade`: the per-port flows merged with the import totals of their group,
      then with the ports on `id`, then renamed. */
  function PreprocessTrade(network: seq<Edge>, ports: seq<Port>, side: Side, bySector: bool): (r: TradeTable)
    ensures r.bySector == bySector
  {
    TradeTable(bySector, Column(Join(WithTotals(network, side, bySector), ports, PairId, PortId), Renamed))
  }

  function RowGroup(row: TradeFlow): GroupKey { GroupKey(row.iso3, row.industries, row.sector) }
  function RowFlowKey(row: TradeFlow): FlowKey { FlowKey(RowGroup(row), row.id) }
  function RowQ(row: TradeFlow): real { row.q }
  function RowV(row: TradeFlow): real { row.v }
  function RowQTotal(row: TradeFlow): real { row.qTotal }
  function RowVTotal(row: TradeFlow): real { row.vTotal }

  /** The rows of the group-by tables, read back from their keys. */
  lemma CountryFlowsRows(network: seq<Edge>, side: Side, bySector: bool, t: GroupTotal)
    requires t in CountryFlows(network, side, bySector)
    ensures var imports := Filter(network, IsPortImport);
      && t.key in Column(imports, GroupFn(side, bySector))
      && t.qTotal == SumWhere(imports, GroupFn(side, bySector), t.key, EdgeQ)
      && t.vTotal == SumWhere(imports, GroupFn(side, bySector), t.key, EdgeV)
  {
  }

  lemma CountryFlowsTotalRows(network: seq<Edge>, side: Side, bySector: bool, f: FlowTotal)
    requires f in CountryFlowsTotal(network, side, bySector)
    ensures f.key in Column(network, FlowFn(side, bySector))
    ensures f.q == SumWhere(network, FlowFn(side, bySector), f.key, EdgeQ)
    ensures f.v == SumWhere(network, FlowFn(side, bySector), f.key, EdgeV)
  {
  }

  /** Every output row comes from a flow, the import total of its group and a port with its id. */
  lemma RowOrigin(network: seq<Edge>, ports: seq<Port>, side: Side, bySector: bool, row: TradeFlow)
    requires row in PreprocessTrade(network, ports, side, bySector).rows
    ensures exists f, t, p ::
      && f in CountryFlowsTotal(network, side, bySector) && t in CountryFlows(network, side, bySector)
      && p in ports && f.key.group == t.key && f.key.id == p.id && row == Renamed(((f, t), p))
  {
    var w := WithTotals(network, side, bySector);
    var j := Join(w, ports, PairId, PortId);
    ColumnMembers(j, Renamed, row);
    var x :| x in j && row == Renamed(x);
    JoinMembers(w, ports, PairId, PortId, x);
    JoinMembers(CountryFlowsTotal(network, side, bySector), CountryFlows(network, side, bySector), FlowGroup, TotalKey, x.0);
  }

  /** Each row's `q_sea_flow_total` / `v_sea_flow_total` is the sum over the `port_import`
      edges of its group, and its `q_sea_flow` / `v_sea_flow` the sum over ALL edges of
      its (group, port). */
  lemma RowSums(network: seq<Edge>, ports: seq<Port>, side: Side, bySector: bool, row: TradeFlow)
    requires row in PreprocessTrade(network, ports, side, bySector).rows
    ensures var imports := Filter(network, IsPortImport);
      && row.qTotal == SumWhere(imports, GroupFn(side, bySector), RowGroup(row), EdgeQ)
      && row.vTotal == SumWhere(imports, GroupFn(side, bySector), RowGroup(row), EdgeV)
      && row.q == SumWhere(network, FlowFn(side, bySector), RowFlowKey(row), EdgeQ)
      && row.v == SumWhere(network, FlowFn(side, bySector), RowFlowKey(row), EdgeV)
  {
    RowOrigin(network, ports, side, bySector, row);
    var f, t, p :| f in CountryFlowsTotal(network, side, bySector) && t in CountryFlows(network, side, bySector)
      && p in ports && f.key.group == t.key && f.key.id == p.id && row == Renamed(((f, t), p));
    CountryFlowsRows(network, side, bySector, t);
    CountryFlowsTotalRows(network, side, bySector, f);
  }

  /** After the simultaneous rename, `iso3` holds the grouping country of an edge through
      the port, and `port_iso3` the port's own country (with its name and geometry). */
  lemma RowCountries(network: seq<Edge>, ports: seq<Port>, side: Side, bySector: bool, row: TradeFlow)
    requires row in PreprocessTrade(network, ports, side, bySector).rows
    ensures exists e :: e in network && Country(side, e) == row.iso3 && e.id == row.id
    ensures exists p ::
      && p in ports && p.id == row.id && row.portIso3 == p.iso3
      && row.portName == p.portName && row.geometry == p.geometry
  {
    RowOrigin(network, ports, side, bySector, row);
    var f, t, p :| f in CountryFlowsTotal(network, side, bySector) && t in CountryFlows(network, side, bySector)
      && p in ports && f.key.group == t.key && f.key.id == p.id && row == Renamed(((f, t), p));
    CountryFlowsTotalRows(network, side, bySector, f);
    ColumnMembers(network, FlowFn(side, bySector), f.key);
  }

  /** A (group, port) appears in the output exactly when some edge carries it, the group
      has a `port_import` edge, and the port id is in the ports table: flows of a group
      without imports, and flows through unknown ports, are dropped. */
  lemma RowsPresent(network: seq<Edge>, ports: seq<Port>, side: Side, bySector: bool, k: FlowKey)
    ensures k in Column(PreprocessTrade(network, ports, side, bySector).rows, RowFlowKey) <==>
      && k in Column(network, FlowFn(side, bySector))
      && k.group in Column(Filter(network, IsPortImport), GroupFn(side, bySector))
      && k.id in Column(ports, PortId)
  {
    if k in Column(PreprocessTrade(network, ports, side, bySector).rows, RowFlowKey) {
      RowPresentOnlyIf(network, ports, side, bySector, k);
    }
    if && k in Column(network, FlowFn(side, bySector))
       && k.group in Column(Filter(network, IsPortImport), GroupFn(side, bySector))
       && k.id in Column(ports, PortId) {
      RowPresentIf(network, ports, side, bySector, k);
    }
  }

  lemma RowPresentOnlyIf(network: seq<Edge>, ports: seq<Port>, side: Side, bySector: bool, k: FlowKey)
    requires k in Column(PreprocessTrade(network, ports, side, bySector).rows, RowFlowKey)
    ensures k in Column(network, FlowFn(side, bySector))
    ensures k.group in Column(Filter(network, IsPortImport), GroupFn(side, bySector))
    ensures k.id in Column(ports, PortId)
  {
    var flows := CountryFlowsTotal(network, side, bySector);
    var totals := CountryFlows(network, side, bySector);
    var w := WithTotals(network, side, bySector);
    var j := Join(w, ports, PairId, PortId);
    var rows := PreprocessTrade(network, ports, side, bySector).rows;
    var imports := Filter(network, IsPortImport);
    ColumnMembers(rows, RowFlowKey, k);
    var row :| row in rows && k == RowFlowKey(row);
    RowOrigin(network, ports, side, bySector, row);
    var f, t, p :| f in flows && t in totals
      && p in ports && f.key.group == t.key && f.key.id == p.id && row == Renamed(((f, t), p));
    CountryFlowsRows(network, side, bySector, t);
    CountryFlowsTotalRows(network, side, bySector, f);
    ColumnMembers(ports, PortId, k.id);
  }

  lemma RowPresentIf(network: seq<Edge>, ports: seq<Port>, side: Side, bySector: bool, k: FlowKey)
    requires k in Column(network, FlowFn(side, bySector))
    requires k.group in Column(Filter(network, IsPortImport), GroupFn(side, bySector))
    requires k.id in Column(ports, PortId)
    ensures k in Column(PreprocessTrade(network, ports, side, bySector).rows, RowFlowKey)
  {
    var flows := CountryFlowsTotal(network, side, bySector);
    var totals := CountryFlows(network, side, bySector);
    var w := WithTotals(network, side, bySector);
    var j := Join(w, ports, PairId, PortId);
    var rows := PreprocessTrade(network, ports, side, bySector).rows;
    var imports := Filter(network, IsPortImport);
    var keys := Distinct(Column(network, FlowFn(side, bySector)));
    var i :| 0 <= i < |keys| && keys[i] == k;
    var f := flows[i];
    var gkeys := Distinct(Column(imports, GroupFn(side, bySector)));
    var m :| 0 <= m < |gkeys| && gkeys[m] == k.group;
    var t := totals[m];
    ColumnMembers(ports, PortId, k.id);
    var p :| p in ports && k.id == PortId(p);
    JoinMembers(flows, totals, FlowGroup, TotalKey, (f, t));
    JoinMembers(w, ports, PairId, PortId, ((f, t), p));
    ColumnMembers(j, Renamed, Renamed(((f, t), p)));
    assert RowFlowKey(Renamed(((f, t), p))) == k;
    ColumnMembers(rows, RowFlowKey, k);
  }

  /** Sums of the per-port flows of a group, over a table that already lists each
      (group, port) once. */
  lemma FlowsAddUp(network: seq<Edge>, side: Side, bySector: bool, g: GroupKey)
    ensures SumWhere(CountryFlowsTotal(network, side, bySector), FlowGroup, g, FlowQ)
         == SumWhere(network, GroupFn(side, bySector), g, EdgeQ)
    ensures SumWhere(CountryFlowsTotal(network, side, bySector), FlowGroup, g, FlowV)
         == SumWhere(network, GroupFn(side, bySector), g, EdgeV)
  {
    var keys := Distinct(Column(network, FlowFn(side, bySector)));
    var flows := CountryFlowsTotal(network, side, bySector);
    SumOfGroupsTable(keys, network, FlowFn(side, bySector), GroupOfFlowKey, g, EdgeQ, flows, FlowGroup, FlowQ);
    SumOfGroupsRefines(network, FlowFn(side, bySector), GroupFn(side, bySector), GroupOfFlowKey, g, EdgeQ);
    SumOfGroupsTable(keys, network, FlowFn(side, bySector), GroupOfFlowKey, g, EdgeV, flows, FlowGroup, FlowV);
    SumOfGroupsRefines(network, FlowFn(side, bySector), GroupFn(side, bySector), GroupOfFlowKey, g, EdgeV);
  }

  function FlowQ(f: FlowTotal): real { f.q }
  function FlowV(f: FlowTotal): real { f.v }
  function PairGroup(x: (FlowTotal, GroupTotal)): GroupKey { FlowGroup(x.0) }
  function PairQ(x: (FlowTotal, GroupTotal)): real { FlowQ(x.0) }
  function PairV(x: (FlowTotal, GroupTotal)): real { FlowV(x.0) }
  function JoinedGroup(x: ((FlowTotal, GroupTotal), Port)): GroupKey { PairGroup(x.0) }
  function JoinedQ(x: ((FlowTotal, GroupTotal), Port)): real { PairQ(x.0) }
  function JoinedV(x: ((FlowTotal, GroupTotal), Port)): real { PairV(x.0) }

  /** The import totals list each group once. */
  lemma TotalsUnique(network: seq<Edge>, side: Side, bySector: bool)
    ensures NoDuplicates(Column(CountryFlows(network, side, bySector), TotalKey))
  {
    var imports := Filter(network, IsPortImport);
    assert Column(CountryFlows(network, side, bySector), TotalKey) == Distinct(Column(imports, GroupFn(side, bySector)));
  }

  /** When every edge is an import, a flow's group has a total. */
  lemma FlowHasTotal(network: seq<Edge>, side: Side, bySector: bool, f: FlowTotal)
    requires forall e :: e in network ==> IsPortImport(e)
    requires f in CountryFlowsTotal(network, side, bySector)
    ensures f.key.group in Column(CountryFlows(network, side, bySector), TotalKey)
  {
    FilterAll(network, IsPortImport);
    CountryFlowsTotalRows(network, side, bySector, f);
    ColumnMembers(network, FlowFn(side, bySector), f.key);
    var e :| e in network && f.key == FlowFn(side, bySector)(e);
    ColumnMembers(network, GroupFn(side, bySector), f.key.group);
    assert Column(CountryFlows(network, side, bySector), TotalKey) == Distinct(Column(network, GroupFn(side, bySector)));
  }

  /** When every edge is an import, every flow finds its group's total. */
  lemma FlowsHaveTotals(network: seq<Edge>, side: Side, bySector: bool)
    requires forall e :: e in network ==> IsPortImport(e)
    ensures Column(WithTotals(network, side, bySector), Fst) == CountryFlowsTotal(network, side, bySector)
  {
    var flows := CountryFlowsTotal(network, side, bySector);
    var totals := CountryFlows(network, side, bySector);
    TotalsUnique(network, side, bySector);
    forall f | f in flows ensures FlowGroup(f) in Column(totals, TotalKey) {
      FlowHasTotal(network, side, bySector, f);
    }
    JoinKeepsAll(flows, totals, FlowGroup, TotalKey);
  }

  /** A flow's port id is the id of some edge. */
  lemma FlowIdFromEdge(network: seq<Edge>, side: Side, bySector: bool, x: (FlowTotal, GroupTotal))
    requires x in WithTotals(network, side, bySector)
    ensures exists e :: e in network && e.id == PairId(x)
  {
    JoinMembers(CountryFlowsTotal(network, side, bySector), CountryFlows(network, side, bySector), FlowGroup, TotalKey, x);
    CountryFlowsTotalRows(network, side, bySector, x.0);
    ColumnMembers(network, FlowFn(side, bySector), x.0.key);
  }

  /** When every port id of the network is listed once in the ports table, every flow
      finds its port. */
  lemma FlowsHavePorts(network: seq<Edge>, ports: seq<Port>, side: Side, bySector: bool)
    requires NoDuplicates(Column(ports, PortId))
    requires forall e :: e in network ==> e.id in Column(ports, PortId)
    ensures Column(Join(WithTotals(network, side, bySector), ports, PairId, PortId), Fst) == WithTotals(network, side, bySector)
  {
    var w := WithTotals(network, side, bySector);
    forall x | x in w ensures PairId(x) in Column(ports, PortId) {
      FlowIdFromEdge(network, side, bySector, x);
    }
    JoinKeepsAll(w, ports, PairId, PortId);
  }

  /** The group sums of the output rows are those of the per-port flows they came from. */
  lemma RowSumsAreFlowSums(network: seq<Edge>, ports: seq<Port>, side: Side, bySector: bool, g: GroupKey)
    ensures var j := Join(WithTotals(network, side, bySector), ports, PairId, PortId);
      && SumWhere(PreprocessTrade(network, ports, side, bySector).rows, RowGroup, g, RowQ)
         == SumWhere(Column(Column(j, Fst), Fst), FlowGroup, g, FlowQ)
      && SumWhere(PreprocessTrade(network, ports, side, bySector).rows, RowGroup, g, RowV)
         == SumWhere(Column(Column(j, Fst), Fst), FlowGroup, g, FlowV)
  {
    var j := Join(WithTotals(network, side, bySector), ports, PairId, PortId);
    SumWhereColumn(j, Renamed, RowGroup, RowQ, JoinedGroup, JoinedQ, g);
    SumWhereColumn(Column(j, Fst), Fst, FlowGroup, FlowQ, PairGroup, PairQ, g);
    SumWhereColumn(j, Fst, PairGroup, PairQ, JoinedGroup, JoinedQ, g);
    SumWhereColumn(j, Renamed, RowGroup, RowV, JoinedGroup, JoinedV, g);
    SumWhereColumn(Column(j, Fst), Fst, FlowGroup, FlowV, PairGroup, PairV, g);
    SumWhereColumn(j, Fst, PairGroup, PairV, JoinedGroup, JoinedV, g);
  }

  /** When every edge is tagged `port_import` and every port id of the network is listed
      once in the ports table, the flows of each row's group add up to that row's totals.
      With other flow tags the two sums are taken over different edges and need not agree. */
  lemma FlowsAddUpToTotals(network: seq<Edge>, ports: seq<Port>, side: Side, bySector: bool, row: TradeFlow)
    requires forall e :: e in network ==> IsPortImport(e)
    requires NoDuplicates(Column(ports, PortId))
    requires forall e :: e in network ==> e.id in Column(ports, PortId)
    requires row in PreprocessTrade(network, ports, side, bySector).rows
    ensures SumWhere(PreprocessTrade(network, ports, side, bySector).rows, RowGroup, RowGroup(row), RowQ) == row.qTotal
    ensures SumWhere(PreprocessTrade(network, ports, side, bySector).rows, RowGroup, RowGroup(row), RowV) == row.vTotal
  {
    FlowsHaveTotals(network, side, bySector);
    FlowsHavePorts(network, ports, side, bySector);
    RowSumsAreFlowSums(network, ports, side, bySector, RowGroup(row));
    FlowsAddUp(network, side, bySector, RowGroup(row));
    RowSums(network, ports, side, bySector, row);
    FilterAll(network, IsPortImport);
  }

  /** Positive import volumes give every output row positive totals, so the shares
      computed from them later never divide by zero. */
  lemma PositiveTotals(network: seq<Edge>, ports: seq<Port>, side: Side, bySector: bool, row: TradeFlow)
    requires forall e :: e in network && IsPortImport(e) ==> e.q > 0.0 && e.v > 0.0
    requires row in PreprocessTrade(network, ports, side, bySector).rows
    ensures row.qTotal > 0.0 && row.vTotal > 0.0
  {
    RowOrigin(network, ports, side, bySector, row);
    var f, t, p :| f in CountryFlowsTotal(network, side, bySector) && t in CountryFlows(network, side, bySector)
      && p in ports && f.key.group == t.key && f.key.id == p.id && row == Renamed(((f, t), p));
    CountryFlowsRows(network, side, bySector, t);
    var imports := Filter(network, IsPortImport);
    SumWherePositive(imports, GroupFn(side, bySector), t.key, EdgeQ);
    SumWherePositive(imports, GroupFn(side, bySector), t.key, EdgeV);
  }

  /** The names of the four trade tables, in insertion order. */
  const TradeKeys: seq<string> := ["export_trade", "import_trade", "export_trade_sector", "import_trade_sector"]

  /** The dict `{export_trade: .., import_trade: .., export_trade_sector: .., import_trade_sector: ..}`
      filled by four insertions in that order. */
  function TradeDict<V>(exports: V, imports: V, exportSector: V, importSector: V): Dicts.Dict<string, V>
  {
    var d0: Dicts.Dict<string, V> := [];
    var d1 := Dicts.Put(d0, "export_trade", exports);
    var d2 := Dicts.Put(d1, "import_trade", imports);
    var d3 := Dicts.Put(d2, "export_trade_sector", exportSector);
    Dicts.Put(d3, "import_trade_sector", importSector)
  }

  /** The four names are distinct, so each insertion adds a key at the end. */
  lemma TradeDictKeys<V>(exports: V, imports: V, exportSector: V, importSector: V)
    ensures Dicts.Keys(TradeDict(exports, imports, exportSector, importSector)) == TradeKeys
  {
    Dicts.PutFourKeys(TradeKeys[0], TradeKeys[1], TradeKeys[2], TradeKeys[3], exports, imports, exportSector, importSector);
  }

  /** Each table is found under its own name: no insertion overwrites an earlier one. */
  lemma TradeDictGet<V>(exports: V, imports: V, exportSector: V, importSector: V)
    ensures Dicts.Get(TradeDict(exports, imports, exportSector, importSector), "export_trade") == Some(exports)
    ensures Dicts.Get(TradeDict(exports, imports, exportSector, importSector), "import_trade") == Some(imports)
    ensures Dicts.Get(TradeDict(exports, imports, exportSector, importSector), "export_trade_sector") == Some(exportSector)
    ensures Dicts.Get(TradeDict(exports, imports, exportSector, importSector), "import_trade_sector") == Some(importSector)
  {
    Dicts.PutFourGet(TradeKeys[0], TradeKeys[1], TradeKeys[2], TradeKeys[3], exports, imports, exportSector, importSector);
  }

  /** `create_trade_dataframe`: exports then imports, first over all trade, then by sector. */
  function CreateTradeDataframe(network: seq<Edge>, ports: seq<Port>): (r: Dicts.Dict<string, TradeTable>)
    ensures Dicts.Keys(r) == TradeKeys
    ensures Dicts.Get(r, "export_trade") == Some(PreprocessTrade(network, ports, Origin, false))
    ensures Dicts.Get(r, "import_trade") == Some(PreprocessTrade(network, ports, Destination, false))
    ensures Dicts.Get(r, "export_trade_sector") == Some(PreprocessTrade(network, ports, Origin, true))
    ensures Dicts.Get(r, "import_trade_sector") == Some(PreprocessTrade(network, ports, Destination, true))
  {
    var exports, imports := PreprocessTrade(network, ports, Origin, false), PreprocessTrade(network, ports, Destination, false);
    var exportSector, importSector := PreprocessTrade(network, ports, Origin, true), PreprocessTrade(network, ports, Destination, true);
    TradeDictKeys(exports, imports, exportSector, importSector);
    TradeDictGet(exports, imports, exportSector, importSector);
    TradeDict(exports, imports, exportSector, importSector)
  }
}

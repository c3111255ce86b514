/** port_risk/preprocessing/merge.py: reshaping the per-hazard downtime rows
    into one row per port, and attaching a sector to every trade-network edge. */
module PortMerge {
  import opened Tables
  import Strings

  /** A port's geometry, carried along untouched. */
  datatype Geometry = Geometry(wkt: string)

  /** A row of the ports table. */
  datatype Port = Port(id: string, portName: string, iso3: string, geometry: Geometry)

  /** A row of the climate-risk table: the downtime days one hazard causes at one port. */
  datatype HazardDowntime = HazardDowntime(portName: string, hazard: string, days: real)

  /** The row index of the reshaped table, (id, iso3, geometry, port_name). */
  datatype PortKey = PortKey(id: string, iso3: string, geometry: Geometry, portName: string)

  /** A risk row merged with a port of the same name. */
  datatype Observation = Observation(port: PortKey, hazard: string, days: real)

  /** A row of the reshaped table: the six hazard columns and their total. */
  datatype PortDowntime = PortDowntime(
    port: PortKey,
    tc: real, coastal: real, earthquake: real, fluvial: real, operational: real, pluvial: real,
    total: real)

  /** The hazard labels of the climate data, in the order of the six column names. */
  const HazardLabels: seq<string> := ["TC", "coastal", "earthquake", "fluvial", "operational", "pluvial"]

  /** The column names given to the unstacked hazards, by position. */
  const DowntimeColumns: seq<string> := [
    "downtime_TC", "downtime_coastal", "downtime_earthquake",
    "downtime_fluvial", "downtime_operational", "downtime_pluvial"]

  /** The j-th hazard column of a reshaped row. */
  function HazardColumn(p: PortDowntime, j: nat): real
    requires j < 6
  {
    [p.tc, p.coastal, p.earthquake, p.fluvial, p.operational, p.pluvial][j]
  }

  function NameOf(p: Port): string { p.portName }
  function PortOf(o: Observation): PortKey { o.port }
  function HazardOf(o: Observation): string { o.hazard }
  function RowPort(row: PortDowntime): PortKey { row.port }

  function Observe(r: HazardDowntime, p: Port): Observation
  {
    Observation(PortKey(p.id, p.iso3, p.geometry, p.portName), r.hazard, r.days)
  }

  function RiskName(r: HazardDowntime): string { r.portName }
  function ObservePair(p: (HazardDowntime, Port)): Observation { Observe(p.0, p.1) }

  /** `risks.merge(ports, on="port_name")`: an inner join on the port name. */
  function JoinOnName(risks: seq<HazardDowntime>, ports: seq<Port>): seq<Observation>
  {
    Column(Join(risks, ports, RiskName, NameOf), ObservePair)
  }

  /** Two observations share both the port and the hazard: unstacking them fails. */
  predicate HasDuplicateEntry(obs: seq<Observation>)
  {
    exists i, j :: 0 <= i < j < |obs| && obs[i].port == obs[j].port && obs[i].hazard == obs[j].hazard
  }

  /** The unstacked cell (port, hazard) after `replace(np.nan, 0)`. */
  function Cell(obs: seq<Observation>, k: PortKey, hazard: string): real
  {
    if obs == [] then 0.0
    else if obs[0].port == k && obs[0].hazard == hazard then obs[0].days
    else Cell(obs[1..], k, hazard)
  }

  /** One reshaped row; the hazard labels go to the six columns by position. */
  function Reshape(obs: seq<Observation>, k: PortKey, labels: seq<string>): PortDowntime
    requires |labels| == 6
  {
    var c := seq(6, j requires 0 <= j < 6 => Cell(obs, k, labels[j]));
    PortDowntime(k, c[0], c[1], c[2], c[3], c[4], c[5], c[0] + c[1] + c[2] + c[3] + c[4] + c[5])
  }

  /** `merge_ports_risk`: merge on the port name, unstack the hazard level, fill the
      gaps with 0, name the six columns and add their total. Unstacking fails on a
      repeated (port, hazard) pair; naming fails unless there are exactly six
      hazard columns, which pandas lists in sorted order. */
  function MergePortsRisk(risks: seq<HazardDowntime>, ports: seq<Port>): (r: Result<seq<PortDowntime>>)
    ensures r.Ok? ==> forall row :: row in r.value ==>
      row.total == row.tc + row.coastal + row.earthquake + row.fluvial + row.operational + row.pluvial
    ensures r.Ok? ==> NoDuplicates(Column(r.value, RowPort))
  {
    var obs := JoinOnName(risks, ports);
    if HasDuplicateEntry(obs) then Err(ValueError("Index contains duplicate entries, cannot reshape"))
    else
      var labels := Strings.SortedDistinct(Column(obs, HazardOf));
      if |labels| != 6 then Err(ValueError("Length mismatch"))
      else
        var keys := Distinct(Column(obs, PortOf));
        Ok(seq(|keys|, i requires 0 <= i < |keys| => Reshape(obs, keys[i], labels)))
  }

  /** The observations are exactly the risk rows paired with the ports of the same name. */
  lemma JoinOnNameMembers(risks: seq<HazardDowntime>, ports: seq<Port>, o: Observation)
    ensures o in JoinOnName(risks, ports) <==>
      exists r, p :: r in risks && p in ports && r.portName == p.portName && o == Observe(r, p)
  {
    var j := Join(risks, ports, RiskName, NameOf);
    ColumnMembers(j, ObservePair, o);
    if o in JoinOnName(risks, ports) {
      var x :| x in j && o == ObservePair(x);
      JoinMembers(risks, ports, RiskName, NameOf, x);
    }
    if exists r, p :: r in risks && p in ports && r.portName == p.portName && o == Observe(r, p) {
      var r, p :| r in risks && p in ports && r.portName == p.portName && o == Observe(r, p);
      JoinMembers(risks, ports, RiskName, NameOf, (r, p));
    }
  }

  /** Without duplicates a cell holds the days of the observation for its (port, hazard),
      and 0 when there is none: a missing pair is never left empty. */
  lemma {:induction false} CellValue(obs: seq<Observation>, k: PortKey, hazard: string)
    requires !HasDuplicateEntry(obs)
    ensures forall o :: o in obs && o.port == k && o.hazard == hazard ==> Cell(obs, k, hazard) == o.days
    ensures (forall o :: o in obs ==> o.port != k || o.hazard != hazard) ==> Cell(obs, k, hazard) == 0.0
  {
    if obs != [] {
      assert !HasDuplicateEntry(obs[1..]) by {
        forall i, j | 0 <= i < j < |obs[1..]|
          ensures obs[1..][i].port != obs[1..][j].port || obs[1..][i].hazard != obs[1..][j].hazard
        {
          assert obs[1..][i] == obs[i + 1] && obs[1..][j] == obs[j + 1];
        }
      }
      CellValue(obs[1..], k, hazard);
      forall o | o in obs && o.port == k && o.hazard == hazard
        ensures Cell(obs, k, hazard) == o.days
      {
        var i :| 0 <= i < |obs| && obs[i] == o;
        if i > 0 {
          assert obs[1..][i - 1] == o;
        }
      }
      assert forall o :: o in obs[1..] ==> o in obs;
    }
  }

  /** Every row of a successful merge: its columns follow the sorted hazard labels
      by position, a hazard observed at the port gives its days and an unobserved one 0. */
  lemma MergedCells(risks: seq<HazardDowntime>, ports: seq<Port>)
    requires MergePortsRisk(risks, ports).Ok?
    ensures var obs := JoinOnName(risks, ports);
      var labels := Strings.SortedDistinct(Column(obs, HazardOf));
      && |labels| == 6
      && Strings.StrictlySorted(labels)
      && forall row, j, o :: row in MergePortsRisk(risks, ports).value && 0 <= j < 6
           && o in obs && o.port == row.port && o.hazard == labels[j]
           ==> HazardColumn(row, j) == o.days
  {
    var obs := JoinOnName(risks, ports);
    var labels := Strings.SortedDistinct(Column(obs, HazardOf));
    forall row, j, o | row in MergePortsRisk(risks, ports).value && 0 <= j < 6
      && o in obs && o.port == row.port && o.hazard == labels[j]
      ensures HazardColumn(row, j) == o.days
    {
      CellValue(obs, row.port, labels[j]);
    }
  }

  /** A hazard never observed at a port reads 0 in that port's row. */
  lemma MergedMissingIsZero(risks: seq<HazardDowntime>, ports: seq<Port>, row: PortDowntime, j: nat)
    requires MergePortsRisk(risks, ports).Ok?
    requires row in MergePortsRisk(risks, ports).value && j < 6
    requires var obs := JoinOnName(risks, ports);
      forall o :: o in obs && o.port == row.port ==> o.hazard != Strings.SortedDistinct(Column(obs, HazardOf))[j]
    ensures HazardColumn(row, j) == 0.0
  {
    var obs := JoinOnName(risks, ports);
    CellValue(obs, row.port, Strings.SortedDistinct(Column(obs, HazardOf))[j]);
  }

  /** One output row per port key that the merge produced, and no other. */
  lemma MergedPorts(risks: seq<HazardDowntime>, ports: seq<Port>)
    requires MergePortsRisk(risks, ports).Ok?
    ensures forall k :: k in Column(MergePortsRisk(risks, ports).value, RowPort)
                    <==> k in Column(JoinOnName(risks, ports), PortOf)
  {
    var obs := JoinOnName(risks, ports);
    var keys := Distinct(Column(obs, PortOf));
    var rows := MergePortsRisk(risks, ports).value;
    assert Column(rows, RowPort) == keys;
  }

  /** When the climate data uses exactly the six known hazard labels, sorting them
      gives the order of the column names, so each label lands in its own column. */
  lemma CanonicalHazardOrder(obs: seq<Observation>)
    requires forall h :: h in Column(obs, HazardOf) <==> h in HazardLabels
    ensures Strings.SortedDistinct(Column(obs, HazardOf)) == HazardLabels
  {
    assert Strings.StrictlySorted(HazardLabels);
    Strings.SortedListingUnique(Strings.SortedDistinct(Column(obs, HazardOf)), HazardLabels);
  }

  /** With non-negative downtimes every hazard column is non-negative and at most the total. */
  lemma TotalBoundsEachHazard(risks: seq<HazardDowntime>, ports: seq<Port>)
    requires MergePortsRisk(risks, ports).Ok?
    requires forall r :: r in risks ==> r.days >= 0.0
    ensures forall row, j :: row in MergePortsRisk(risks, ports).value && 0 <= j < 6 ==>
      0.0 <= HazardColumn(row, j) <= row.total
  {
    forall row | row in MergePortsRisk(risks, ports).value
      ensures forall j :: 0 <= j < 6 ==> 0.0 <= HazardColumn(row, j) <= row.total
    {
      forall j | 0 <= j < 6 ensures 0.0 <= HazardColumn(row, j) {
        MergedCellNonNegative(risks, ports, row, j);
      }
      RowWithinTotal(row);
    }
  }

  lemma MergedCellNonNegative(risks: seq<HazardDowntime>, ports: seq<Port>, row: PortDowntime, j: nat)
    requires MergePortsRisk(risks, ports).Ok?
    requires forall r :: r in risks ==> r.days >= 0.0
    requires row in MergePortsRisk(risks, ports).value && j < 6
    ensures 0.0 <= HazardColumn(row, j)
  {
    var obs := JoinOnName(risks, ports);
    forall o | o in obs ensures o.days >= 0.0 {
      JoinOnNameMembers(risks, ports, o);
    }
    var labels := Strings.SortedDistinct(Column(obs, HazardOf));
    CellNonNegative(obs, row.port, labels[j]);
  }

  /** A total of non-negative columns bounds each of them. */
  lemma RowWithinTotal(row: PortDowntime)
    requires row.total == row.tc + row.coastal + row.earthquake + row.fluvial + row.operational + row.pluvial
    requires forall j :: 0 <= j < 6 ==> 0.0 <= HazardColumn(row, j)
    ensures forall j :: 0 <= j < 6 ==> HazardColumn(row, j) <= row.total
  {
    assert HazardColumn(row, 0) == row.tc && HazardColumn(row, 1) == row.coastal
      && HazardColumn(row, 2) == row.earthquake && HazardColumn(row, 3) == row.fluvial
      && HazardColumn(row, 4) == row.operational && HazardColumn(row, 5) == row.pluvial;
  }

  lemma {:induction false} CellNonNegative(obs: seq<Observation>, k: PortKey, hazard: string)
    requires forall o :: o in obs ==> o.days >= 0.0
    ensures Cell(obs, k, hazard) >= 0.0
  {
    if obs != [] {
      assert forall o :: o in obs[1..] ==> o in obs;
      CellNonNegative(obs[1..], k, hazard);
    }
  }

  /** Risk rows naming no known port are dropped by the inner merge: removing them
      beforehand changes nothing. */
  lemma DropsUnknownPorts(risks: seq<HazardDowntime>, ports: seq<Port>)
    ensures MergePortsRisk(risks, ports) == MergePortsRisk(Filter(risks, HasKeyIn(ports, NameOf, RiskName)), ports)
  {
    JoinDropsUnmatched(risks, ports, RiskName, NameOf);
  }

  /** A (port, hazard) pair listed twice in the risk table, for a port in the ports table,
      makes the unstack fail. */
  lemma DuplicatePairFails(risks: seq<HazardDowntime>, ports: seq<Port>, i: nat, j: nat, p: Port)
    requires i < j < |risks|
    requires risks[i].portName == risks[j].portName && risks[i].hazard == risks[j].hazard
    requires p in ports && p.portName == risks[i].portName
    ensures MergePortsRisk(risks, ports).Err?
  {
    var a, b := JoinKeepsOrder(risks, ports, RiskName, NameOf, i, j, p);
    var obs := JoinOnName(risks, ports);
    assert obs[a] == Observe(risks[i], p) && obs[b] == Observe(risks[j], p);
    assert HasDuplicateEntry(obs);
  }

  /** An edge of the maritime trade network: origin and destination countries,
      the hot-encoded industry, the flow tag, the port id and the two flow volumes. */
  datatype NetworkEdge = NetworkEdge(
    isoO: string, isoD: string, industries: string, flow: string, id: string, q: real, v: real)

  /** A row of the industry-to-sector mapping. */
  datatype IndustrySector = IndustrySector(industries: string, sector: string)

  /** A network edge with its sector attached. */
  datatype Edge = Edge(
    isoO: string, isoD: string, industries: string, flow: string, id: string, q: real, v: real,
    sector: string)

  function Attach(e: NetworkEdge, m: IndustrySector): Edge
  {
    Edge(e.isoO, e.isoD, e.industries, e.flow, e.id, e.q, e.v, m.sector)
  }

  /** The network edge an edge came from, without its sector. */
  function Detach(e: Edge): NetworkEdge
  {
    NetworkEdge(e.isoO, e.isoD, e.industries, e.flow, e.id, e.q, e.v)
  }

  function MappingKey(m: IndustrySector): string { m.industries }
  function EdgeIndustries(e: NetworkEdge): string { e.industries }
  function AttachPair(p: (NetworkEdge, IndustrySector)): Edge { Attach(p.0, p.1) }

  /** `merge_network_industries`: `network.merge(industries, on="Industries")`, an inner join. */
  function MergeNetworkIndustries(network: seq<NetworkEdge>, mapping: seq<IndustrySector>): seq<Edge>
  {
    Column(Join(network, mapping, EdgeIndustries, MappingKey), AttachPair)
  }

  /** The merged edges are exactly the network rows paired with a mapping row of their industry. */
  lemma MergeNetworkMembers(network: seq<NetworkEdge>, mapping: seq<IndustrySector>, x: Edge)
    ensures x in MergeNetworkIndustries(network, mapping) <==>
      exists e, m :: e in network && m in mapping && e.industries == m.industries && x == Attach(e, m)
  {
    var j := Join(network, mapping, EdgeIndustries, MappingKey);
    ColumnMembers(j, AttachPair, x);
    if x in MergeNetworkIndustries(network, mapping) {
      var y :| y in j && x == AttachPair(y);
      JoinMembers(network, mapping, EdgeIndustries, MappingKey, y);
    }
    if exists e, m :: e in network && m in mapping && e.industries == m.industries && x == Attach(e, m) {
      var e, m :| e in network && m in mapping && e.industries == m.industries && x == Attach(e, m);
      JoinMembers(network, mapping, EdgeIndustries, MappingKey, (e, m));
    }
  }

  /** `merge_network_industries` keeps exactly the network rows whose industry appears in
      the mapping, in order and each once, when the mapping lists each industry once. */
  lemma MergeNetworkKeepsKnown(network: seq<NetworkEdge>, mapping: seq<IndustrySector>)
    requires NoDuplicates(Column(mapping, MappingKey))
    ensures Column(MergeNetworkIndustries(network, mapping), Detach)
         == Filter(network, HasKeyIn(mapping, MappingKey, EdgeIndustries))
  {
    var j := Join(network, mapping, EdgeIndustries, MappingKey);
    JoinUniqueRight(network, mapping, EdgeIndustries, MappingKey);
    assert Column(Column(j, AttachPair), Detach) == Column(j, Fst);
  }
}

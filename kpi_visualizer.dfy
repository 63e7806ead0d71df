/**
 * The KPI visualizer: the six metrics its diagram labels, the flat records
 * it hands to the CSV exporter for the mapping table, and the alignment
 * badge colour.
 */
module KpiVisualizerView {
  import opened Wrappers
  import opened KpiData
  import opened CsvExport

  // ---------------------------------------------------------------------
  // The diagram

  /** `conflictingMetrics.slice(0, 6)`. */
  function TopConflicts(ms: seq<ConflictingMetric>): (top: seq<ConflictingMetric>)
    ensures |ms| >= 6 ==> |top| == 6
    ensures |ms| < 6 ==> top == ms
    ensures top == ms[..|top|]
  {
    if |ms| <= 6 then ms else ms[..6]
  }

  /** The label each diagram slot shows when it has no metric. */
  const DefaultSlotNames: seq<string> :=
    ["Conversion Rate", "Engagement", "Active Users", "Retention", "Churn", "Activation"]

  /** `topConflicts[slot]?.name || default`. */
  function SlotLabel(top: seq<ConflictingMetric>, slot: nat): (shown: string)
    requires slot < 6
    ensures slot < |top| && top[slot].name != "" ==> shown == top[slot].name
    ensures !(slot < |top| && top[slot].name != "") ==> shown == DefaultSlotNames[slot]
  {
    if slot < |top| && top[slot].name != "" then top[slot].name else DefaultSlotNames[slot]
  }

  /** With the shipped catalogue every slot shows the catalogue's metric, never a default. */
  lemma ShippedSlotLabels()
    ensures forall slot :: 0 <= slot < 6 ==>
      SlotLabel(TopConflicts(ConflictingMetrics), slot) == ConflictingMetrics[slot].name
  {
  }

  // ---------------------------------------------------------------------
  // The mapping export

  /** The nine columns of the mapping export, in record order. */
  const MappingColumns: seq<string> := [
    "Sales KPI", "Sales Definition", "Marketing KPI", "Marketing Definition",
    "Product KPI", "Product Definition", "Data KPI", "Data Definition", "Alignment Status"]

  /** The values of one mapping, column by column. */
  function MappingValues(m: MetricMapping): seq<string> {
    [m.sales.term, m.sales.definition, m.marketing.term, m.marketing.definition,
     m.product.term, m.product.definition, m.data.term, m.data.definition, m.alignmentStatus]
  }

  /** One mapping as a flat record. */
  function ProjectMapping(m: MetricMapping): (r: Record)
    ensures EntryKeys(r) == MappingColumns
    ensures forall j :: 0 <= j < 9 ==> r[j].1 == MappingValues(m)[j]
  {
    [("Sales KPI", m.sales.term), ("Sales Definition", m.sales.definition),
     ("Marketing KPI", m.marketing.term), ("Marketing Definition", m.marketing.definition),
     ("Product KPI", m.product.term), ("Product Definition", m.product.definition),
     ("Data KPI", m.data.term), ("Data Definition", m.data.definition),
     ("Alignment Status", m.alignmentStatus)]
  }

  /** `metricMappings.map(...)`: one record per mapping, in order. */
  function ProjectMappings(ms: seq<MetricMapping>): (rs: seq<Record>)
    ensures |rs| == |ms|
  {
    seq(|ms|, i requires 0 <= i < |ms| => ProjectMapping(ms[i]))
  }

  lemma ColumnsDistinct()
    ensures Distinct(MappingColumns)
  {
  }

  lemma ColumnsPlain()
    ensures forall j :: 0 <= j < |MappingColumns| ==> PlainKey(MappingColumns[j])
  {
  }

  /** Exported, the mappings give exactly the nine columns as header, in order. */
  lemma MappingHeader(ms: seq<MetricMapping>)
    requires |ms| > 0
    ensures CsvKeys(ProjectMappings(ms)) == MappingColumns
  {
    ColumnsDistinct();
    UniformKeys(ProjectMappings(ms), MappingColumns);
  }

  lemma MappingKeysPlain(ms: seq<MetricMapping>)
    ensures PlainKeys(ProjectMappings(ms))
  {
    var data: seq<Record> := ProjectMappings(ms);
    ColumnsPlain();
    forall i, j | 0 <= i < |data| && 0 <= j < |data[i]| ensures PlainKey(data[i][j].0) {
      assert data[i][j].0 == EntryKeys(data[i])[j] == MappingColumns[j];
    }
  }

  /** Under the nine columns, a projected record's cells are the mapping's fields. */
  lemma MappingRow(m: MetricMapping)
    ensures RowValues(MappingColumns, ProjectMapping(m)) == MappingValues(m)
  {
    var r := ProjectMapping(m);
    ColumnsDistinct();
    forall j | 0 <= j < 9 ensures CellValue(r, MappingColumns[j]) == MappingValues(m)[j] {
      assert r[j].0 == MappingColumns[j];
      LookupEntry(r, j);
    }
  }

  /** The mappings' values, one row of nine per mapping, in order. */
  function MappingTable(ms: seq<MetricMapping>): (t: seq<seq<string>>)
    ensures |t| == |ms|
  {
    seq(|ms|, i requires 0 <= i < |ms| => MappingValues(ms[i]))
  }

  /** Under the nine columns, the projected records hold the mappings' values. */
  lemma MappingRows(ms: seq<MetricMapping>)
    ensures Table(MappingColumns, ProjectMappings(ms)) == MappingTable(ms)
  {
    var data: seq<Record> := ProjectMappings(ms);
    forall i | 0 <= i < |ms| ensures Table(MappingColumns, data)[i] == MappingTable(ms)[i] {
      MappingRow(ms[i]);
    }
  }

  /**
   * Reading the mapping export back gives the nine columns and, for each
   * mapping in order, its nine fields.
   */
  lemma MappingExportRoundTrip(ms: seq<MetricMapping>)
    requires |ms| > 0
    ensures ParseCsv(CsvText(ProjectMappings(ms))) == Some((MappingColumns, MappingTable(ms)))
  {
    MappingKeysPlain(ms);
    ExportRoundTrip(ProjectMappings(ms));
    MappingHeader(ms);
    MappingRows(ms);
  }

  /** An empty mapping list exports a lone line break. */
  lemma NoMappingsExport()
    ensures CsvText(ProjectMappings([])) == "\n"
  {
    assert ProjectMappings([]) == [];
    EmptyExport();
  }

  // ---------------------------------------------------------------------
  // Alignment badges

  const RedBadge: string := "bg-red-600 hover:bg-red-700"
  const YellowBadge: string := "bg-yellow-600 hover:bg-yellow-700"
  const GreenBadge: string := "bg-green-600 hover:bg-green-700"

  /** Red for "Misaligned", yellow for "Partially Aligned", green for anything else. */
  function AlignmentBadge(status: string): (c: string)
    ensures c == RedBadge <==> status == "Misaligned"
    ensures c == YellowBadge <==> status == "Partially Aligned"
    ensures c == GreenBadge <==> status != "Misaligned" && status != "Partially Aligned"
  {
    if status == "Misaligned" then RedBadge
    else if status == "Partially Aligned" then YellowBadge
    else GreenBadge
  }
}

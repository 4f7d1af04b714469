/**
 * The result views: pure projections of a completed analysis into what each
 * of the four tabs shows. Nothing here changes state.
 */
module Presenter {
  import opened Wrappers
  import opened Payloads
  import JsText

  /** The four result tabs. */
  datatype Tab = Overview | Schema | Storage | Ddl

  // Colours of the quality bar.
  const Green := "#4CAF50"
  const Orange := "#FF9800"
  const Red := "#f44336"

  /** Colour of the quality bar for a score: below 0.7 red, below 0.9 orange, otherwise green. */
  function QualityColor(score: real): (color: string)
    ensures color == Red <==> score < 0.7
    ensures color == Orange <==> 0.7 <= score < 0.9
    ensures color == Green <==> 0.9 <= score
  {
    if score < 0.7 then Red
    else if score < 0.9 then Orange
    else Green
  }

  /** Rank of a colour tier: 0 for red, 1 for orange, 2 for green. */
  function TierRank(color: string): nat
  {
    if color == Red then 0 else if color == Orange then 1 else 2
  }

  /** A better score never gets a worse colour. */
  lemma QualityColorMonotone(lo: real, hi: real)
    requires lo <= hi
    ensures TierRank(QualityColor(lo)) <= TierRank(QualityColor(hi))
  {
  }

  // Marks used in the schema table and the storage options.
  const Check := "✅"
  const Cross := "❌"

  function Mark(b: bool): string
  {
    if b then Check else Cross
  }

  /** One row of the schema table: name, type, "indexed" mark, "required" mark. */
  datatype SchemaRow = SchemaRow(name: string, fieldType: string, indexed: string, required: string)

  /** The schema view: the table name heading and one row per field. */
  datatype SchemaView = SchemaView(tableName: string, rows: seq<SchemaRow>)

  /** The rows of the schema table, in field order; a field is required exactly when it is not nullable. */
  function SchemaRows(fields: seq<SchemaField>): (rows: seq<SchemaRow>)
    ensures |rows| == |fields|
    ensures forall i :: 0 <= i < |fields| ==>
      rows[i].name == fields[i].name && rows[i].fieldType == fields[i].fieldType
    ensures forall i :: 0 <= i < |fields| ==>
      (rows[i].indexed == Check <==> fields[i].indexed) && (rows[i].indexed == Cross <==> !fields[i].indexed)
    ensures forall i :: 0 <= i < |fields| ==>
      (rows[i].required == Check <==> !fields[i].nullable) && (rows[i].required == Cross <==> fields[i].nullable)
  {
    seq(|fields|, i requires 0 <= i < |fields| =>
      SchemaRow(fields[i].name, fields[i].fieldType, Mark(fields[i].indexed), Mark(!fields[i].nullable)))
  }

  /** `TableSchema`: nothing for a missing schema, otherwise the table. */
  function SchemaTable(schema: Option<TableSchema>): (v: Option<SchemaView>)
    ensures v.Some? <==> schema.Some?
    ensures v.Some? ==> v.value.tableName == schema.value.tableName && v.value.rows == SchemaRows(schema.value.fields)
  {
    match schema
    case None => None
    case Some(t) => Some(SchemaView(t.tableName, SchemaRows(t.fields)))
  }

  // Verdicts shown for each storage option.
  const Suitable := "✅ Подходит"
  const Unsuitable := "❌ Не подходит"

  /** One storage option: its key upper-cased, the verdict and the reasons. */
  datatype OptionRow = OptionRow(key: string, verdict: string, reasons: seq<string>)

  /** The storage recommendation view. */
  datatype RecommendationView = RecommendationView(primaryStorage: string, reasoning: string, options: seq<OptionRow>)

  /** The storage options in entry order, each key upper-cased and each verdict following `suitable`. */
  function OptionRows(options: seq<(string, StorageOption)>): (rows: seq<OptionRow>)
    ensures |rows| == |options|
    ensures forall i :: 0 <= i < |options| ==>
      rows[i].key == JsText.ToUpperAscii(options[i].0) && rows[i].reasons == options[i].1.reasons
    ensures forall i :: 0 <= i < |options| ==>
      (rows[i].verdict == Suitable <==> options[i].1.suitable) && (rows[i].verdict == Unsuitable <==> !options[i].1.suitable)
  {
    seq(|options|, i requires 0 <= i < |options| =>
      OptionRow(JsText.ToUpperAscii(options[i].0),
                if options[i].1.suitable then Suitable else Unsuitable,
                options[i].1.reasons))
  }

  /** `StorageRecommendation`: nothing for a missing recommendation, otherwise the panel. */
  function RecommendationPanel(rec: Option<StorageRecommendation>): (v: Option<RecommendationView>)
    ensures v.Some? <==> rec.Some?
    ensures v.Some? ==>
      v.value.primaryStorage == rec.value.primaryStorage && v.value.reasoning == rec.value.reasoning
      && v.value.options == OptionRows(rec.value.storageOptions)
  {
    match rec
    case None => None
    case Some(r) => Some(RecommendationView(r.primaryStorage, r.reasoning, OptionRows(r.storageOptions)))
  }

  /** One block of a tab's content. */
  datatype Section =
    | QualityScore(score: real, color: string)
    | Characteristics(data: Option<DataCharacteristics>)
    | Recommendation(panel: Option<RecommendationView>)
    | Advice(items: seq<string>)
    | SchemaPanel(table: Option<SchemaView>)
    | DdlPanel(metadata: Option<DdlGeneration>)

  /**
   * What a tab shows for a completed result. `None` means rendering throws:
   * the overview and DDL tabs read a property of `ddl_metadata`, which fails
   * when it is absent.
   */
  function TabContent(tab: Tab, r: AnalysisResult): (sections: Option<seq<Section>>)
    ensures sections.None? <==> (tab == Overview || tab == Ddl) && r.ddlMetadata.None?
    ensures sections.Some? ==> |sections.value| == (if tab == Overview then 4 else 1)
    ensures sections.Some? && tab == Overview ==>
      sections.value[0] == QualityScore(r.dataQualityScore, QualityColor(r.dataQualityScore))
    ensures sections.Some? && tab == Overview ==>
      sections.value[1..] == [Characteristics(r.ddlMetadata.value.dataCharacteristics),
                              Recommendation(RecommendationPanel(r.storageRecommendation)),
                              Advice(r.recommendations)]
    ensures tab == Schema ==> sections == Some([SchemaPanel(SchemaTable(r.tableSchema))])
    ensures tab == Storage ==> sections == Some([Recommendation(RecommendationPanel(r.storageRecommendation))])
    ensures tab == Ddl && r.ddlMetadata.Some? ==> sections == Some([DdlPanel(r.ddlMetadata.value.ddlGeneration)])
  {
    match tab
    case Overview =>
      if r.ddlMetadata.None? then None
      else Some([QualityScore(r.dataQualityScore, QualityColor(r.dataQualityScore)),
                 Characteristics(r.ddlMetadata.value.dataCharacteristics),
                 Recommendation(RecommendationPanel(r.storageRecommendation)),
                 Advice(r.recommendations)])
    case Schema => Some([SchemaPanel(SchemaTable(r.tableSchema))])
    case Storage => Some([Recommendation(RecommendationPanel(r.storageRecommendation))])
    case Ddl =>
      if r.ddlMetadata.None? then None
      else Some([DdlPanel(r.ddlMetadata.value.ddlGeneration)])
  }

  /**
   * The schema tab shows one row per schema field, marked "required" exactly
   * when the field is not nullable.
   */
  lemma SchemaTabMarksRequired(r: AnalysisResult, i: nat)
    requires r.tableSchema.Some? && i < |r.tableSchema.value.fields|
    ensures TabContent(Schema, r).Some?
    ensures TabContent(Schema, r).value[0].SchemaPanel?
    ensures TabContent(Schema, r).value[0].table.Some?
    ensures |TabContent(Schema, r).value[0].table.value.rows| == |r.tableSchema.value.fields|
    ensures TabContent(Schema, r).value[0].table.value.rows[i].required == Check
        <==> !r.tableSchema.value.fields[i].nullable
  {
  }

  /** The storage tab shows the same recommendation panel the overview shows. */
  lemma StorageTabRepeatsOverview(r: AnalysisResult)
    requires r.ddlMetadata.Some?
    ensures TabContent(Storage, r).Some? && TabContent(Overview, r).Some?
    ensures TabContent(Storage, r).value[0] in TabContent(Overview, r).value
  {
  }
}

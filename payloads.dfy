/** Optional values: `null`/`undefined` on one side, a present value on the other. */
module Wrappers {

  datatype Option<+T> = None | Some(value: T)
}

/**
 * The values the component handles: the file the user picked and the parsed
 * JSON bodies of the three services' success responses.
 */
module Payloads {
  import opened Wrappers

  /**
   * A string-valued property read from a parsed JSON body: absent from the
   * object (`undefined`), explicitly `null`, or a string.
   */
  datatype Field = Missing | Null | Text(s: string)

  /** JavaScript truthiness of such a property: only a non-empty string is truthy. */
  predicate Truthy(f: Field)
  {
    f.Text? && f.s != ""
  }

  /** What `${f}` produces inside a template literal. */
  function Interpolate(f: Field): string
  {
    match f
    case Missing => "undefined"
    case Null => "null"
    case Text(s) => s
  }

  /** A file picked in the browser's file dialog. */
  datatype LocalFile = LocalFile(name: string, content: seq<bv8>)

  /** How one `fetch` round trip ended: a parsed 2xx body, or any failure (network, non-2xx status, bad JSON). */
  datatype Outcome<T> = Ok(payload: T) | Fail

  /** Body of a successful upload: `storage_path` and `message`. */
  datatype UploadReply = UploadReply(storagePath: Field, message: Field)

  /** Body of a successful analysis start: `analysis_id` and `message`. */
  datatype StartReply = StartReply(analysisId: Field, message: Field)

  /** Body of a successful status query: `status`, `message` and, once completed, `result`. */
  datatype StatusReply = StatusReply(status: Field, message: Field, result: Option<AnalysisResult>)

  /** The `result` object of a completed analysis. */
  datatype AnalysisResult = AnalysisResult(
    dataQualityScore: real,
    tableSchema: Option<TableSchema>,
    ddlMetadata: Option<DdlMetadata>,
    storageRecommendation: Option<StorageRecommendation>,
    recommendations: seq<string>)

  datatype TableSchema = TableSchema(tableName: string, fields: seq<SchemaField>)

  datatype SchemaField = SchemaField(name: string, fieldType: string, indexed: bool, nullable: bool)

  datatype DdlMetadata = DdlMetadata(
    dataCharacteristics: Option<DataCharacteristics>,
    ddlGeneration: Option<DdlGeneration>)

  datatype DataCharacteristics = DataCharacteristics(
    rowCount: int, columnCount: int, estimatedSize: string, dataTypes: seq<string>)

  datatype DdlGeneration = DdlGeneration(postgresql: PostgresDdl, clickhouse: ClickHouseDdl, hdfs: HdfsDdl)

  datatype PostgresDdl = PostgresDdl(tableName: string, features: seq<string>)

  datatype ClickHouseDdl = ClickHouseDdl(engine: string, features: seq<string>)

  datatype HdfsDdl = HdfsDdl(format: string, path: string, features: seq<string>)

  /**
   * `storage_recommendation`: the primary storage, the text of
   * `reasoning.recommendation`, and `storage_options` as its entries in
   * object order.
   */
  datatype StorageRecommendation = StorageRecommendation(
    primaryStorage: string,
    reasoning: string,
    storageOptions: seq<(string, StorageOption)>)

  datatype StorageOption = StorageOption(suitable: bool, reasons: seq<string>)
}

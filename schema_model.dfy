/** The data the schema converter reads and writes: an Azure AI Search index
    definition (the SDK object and the REST JSON export alike), and the
    conversion result with its Milvus field descriptors. */
module SchemaModel {
  import opened Wrappers
  import opened PyDict
  import opened Values
  import opened Counting
  import opened TypeMappings
  import opened IndexMappings

  /** A field of the source index. `isKey` and `hasSubFields` are the
      truthiness of the `key` and `fields` attributes. */
  datatype SourceField = SourceField(
    name: string,
    edmType: string,
    isKey: bool,
    vectorProfile: Option<string>,
    dimensions: Option<int>,
    hasSubFields: bool)

  datatype HnswParameters = HnswParameters(m: Value, efConstruction: Value, efSearch: Value, metric: string)

  /** A vector search algorithm configuration; `exhaustiveKnnMetric` is the
      metric of its exhaustive-KNN parameters, when it has any. */
  datatype VectorAlgorithm = VectorAlgorithm(
    name: string,
    kind: string,
    hnsw: Option<HnswParameters>,
    exhaustiveKnnMetric: Option<string>)

  datatype VectorProfile = VectorProfile(name: string, algorithm: string)

  datatype VectorSearch = VectorSearch(algorithms: seq<VectorAlgorithm>, profiles: seq<VectorProfile>)

  /** An index definition. The four flags are the truthiness of the scoring
      profiles, suggesters, semantic settings and semantic search attributes. */
  datatype SourceIndex = SourceIndex(
    name: string,
    fields: seq<SourceField>,
    vectorSearch: Option<VectorSearch>,
    hasScoringProfiles: bool,
    hasSuggesters: bool,
    hasSemanticSettings: bool,
    hasSemanticSearch: bool)

  /** A Milvus field descriptor; the optional parameters are those passed to
      `FieldSchema`, None when not passed. */
  datatype FieldSchema = FieldSchema(
    name: string,
    dtype: DataType,
    description: string,
    isPrimary: bool,
    maxLength: Option<int>,
    dim: Option<int>,
    elementType: Option<DataType>,
    maxCapacity: Option<int>,
    isPartitionKey: bool)

  datatype FieldConversion = FieldConversion(
    azureName: string,
    azureType: string,
    milvusField: Option<FieldSchema>,
    mapping: TypeMapping,
    skipped: bool,
    skipReason: string,
    renamedTo: string,
    isPrimaryKey: bool)

  datatype IndexConversion = IndexConversion(
    azureProfileName: string,
    azureAlgorithmKind: string,
    azureMetric: string,
    milvusConfig: MilvusIndexConfig,
    targetField: string)

  datatype ConversionWarning = ConversionWarning(category: string, message: string, fieldName: string)

  datatype CollectionSchema = CollectionSchema(
    fields: seq<FieldSchema>,
    description: string,
    enableDynamicField: bool)

  datatype SchemaConversionResult = SchemaConversionResult(
    azureIndexName: string,
    milvusCollectionName: string,
    collectionSchema: CollectionSchema,
    fieldConversions: seq<FieldConversion>,
    indexConversions: seq<IndexConversion>,
    warnings: seq<ConversionWarning>,
    unsupportedFeatures: seq<string>)

  predicate IsSkipped(fc: FieldConversion) { fc.skipped }
  predicate IsConverted(fc: FieldConversion) { !fc.skipped }
  predicate IsVectorConversion(fc: FieldConversion) { fc.mapping.isVector }

  /** `SchemaConversionResult.summary()`. */
  datatype ConversionSummary = ConversionSummary(
    azureIndex: string,
    milvusCollection: string,
    fieldsTotal: nat,
    fieldsConverted: nat,
    fieldsSkipped: nat,
    vectorFields: nat,
    indexes: nat,
    warnings: nat,
    unsupportedFeatures: seq<string>)

  /** The summary counts: each count is the number of field conversions of
      its kind, converted and skipped fields partition the total, and there
      are no skipped fields exactly when every field was converted. */
  function Summary(r: SchemaConversionResult): (s: ConversionSummary)
    ensures s.fieldsTotal == |r.fieldConversions|
    ensures s.fieldsSkipped == Count(r.fieldConversions, IsSkipped)
    ensures s.fieldsConverted == Count(r.fieldConversions, IsConverted)
    ensures s.vectorFields == Count(r.fieldConversions, IsVectorConversion)
    ensures s.fieldsConverted + s.fieldsSkipped == s.fieldsTotal
    ensures s.fieldsSkipped == 0 <==> forall i :: 0 <= i < |r.fieldConversions| ==> !r.fieldConversions[i].skipped
    ensures s.vectorFields <= s.fieldsTotal
    ensures s.indexes == |r.indexConversions| && s.warnings == |r.warnings|
    ensures s.azureIndex == r.azureIndexName && s.milvusCollection == r.milvusCollectionName
    ensures s.unsupportedFeatures == r.unsupportedFeatures
  {
    var fcs := r.fieldConversions;
    CountComplement(fcs, IsConverted, IsSkipped);
    CountZero(fcs, IsSkipped);
    ConversionSummary(
      r.azureIndexName, r.milvusCollectionName, |fcs|,
      Count(fcs, IsConverted), Count(fcs, IsSkipped), Count(fcs, IsVectorConversion),
      |r.indexConversions|, |r.warnings|, r.unsupportedFeatures)
  }
}

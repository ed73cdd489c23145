/** Mapping of Azure AI Search Edm type identifiers onto Milvus data types:
    three constant tables (scalar, collection, vector) and the resolver that
    looks a type identifier up in them, with a JSON fallback for the rest. */
module TypeMappings {
  import opened Wrappers
  import opened PyDict

  /** The Milvus data types the converter can produce. */
  datatype DataType =
    | Varchar | Int8 | Int16 | Int32 | Int64 | Float | Double | Bool | Json | Array
    | FloatVector | Float16Vector | BinaryVector

  /** `DataType.name` as pymilvus spells it. */
  function DataTypeName(t: DataType): (s: string)
    ensures s != ""
  {
    match t
    case Varchar => "VARCHAR"
    case Int8 => "INT8"
    case Int16 => "INT16"
    case Int32 => "INT32"
    case Int64 => "INT64"
    case Float => "FLOAT"
    case Double => "DOUBLE"
    case Bool => "BOOL"
    case Json => "JSON"
    case Array => "ARRAY"
    case FloatVector => "FLOAT_VECTOR"
    case Float16Vector => "FLOAT16_VECTOR"
    case BinaryVector => "BINARY_VECTOR"
  }

  predicate IsVectorType(t: DataType) {
    t == FloatVector || t == Float16Vector || t == BinaryVector
  }

  datatype MappingConfidence = Exact | Lossless | Lossy | Semantic | Unsupported

  /** `MappingConfidence.value`. */
  function ConfidenceValue(c: MappingConfidence): string {
    match c
    case Exact => "exact"
    case Lossless => "lossless"
    case Lossy => "lossy"
    case Semantic => "semantic"
    case Unsupported => "unsupported"
  }

  /** How one Edm type maps onto Milvus. */
  datatype TypeMapping = TypeMapping(
    edmType: string,
    milvusType: DataType,
    confidence: MappingConfidence,
    isVector: bool,
    elementType: Option<DataType>,
    defaultMaxLength: Option<int>,
    notes: string,
    warnings: seq<string>)

  function Plain(edm: string, t: DataType, c: MappingConfidence, notes: string): TypeMapping {
    TypeMapping(edm, t, c, false, None, None, notes, [])
  }

  // The table entries, one constant per Edm type.
  const StringMapping := TypeMapping("Edm.String", Varchar, Exact, false, None, Some(65535),
      "search attributes dropped", [])
  const Int32Mapping := Plain("Edm.Int32", Int32, Exact, "")
  const Int64Mapping := Plain("Edm.Int64", Int64, Exact, "")
  const DoubleMapping := Plain("Edm.Double", Double, Exact, "")
  const SingleMapping := Plain("Edm.Single", Float, Exact,
      "scalar float, not a vector")
  const BooleanMapping := Plain("Edm.Boolean", Bool, Exact, "")
  const DateTimeOffsetMapping := TypeMapping("Edm.DateTimeOffset", Varchar, Semantic, false, None, Some(64),
      "ISO 8601 string",
      ["date filters compare text"])
  const GeographyPointMapping := TypeMapping("Edm.GeographyPoint", Json, Semantic, false, None, None,
      "GeoJSON point",
      ["no geo index or distance"])
  const ComplexTypeMapping := TypeMapping("Edm.ComplexType", Json, Semantic, false, None, None,
      "flattened into JSON",
      ["nested filters need rewriting"])
  const ByteMapping := Plain("Edm.Byte", Int16, Lossless, "UINT8 upcast to INT16")
  const Int16Mapping := Plain("Edm.Int16", Int16, Exact, "")
  const SByteMapping := Plain("Edm.SByte", Int8, Exact, "")
  const CollectionStringMapping := TypeMapping("Collection(Edm.String)", Array, Exact, false, Some(Varchar), None,
      "ARRAY of VARCHAR", [])
  const CollectionInt32Mapping := TypeMapping("Collection(Edm.Int32)", Array, Exact, false, Some(Int32), None, "", [])
  const CollectionInt64Mapping := TypeMapping("Collection(Edm.Int64)", Array, Exact, false, Some(Int64), None, "", [])
  const CollectionDoubleMapping := TypeMapping("Collection(Edm.Double)", Array, Exact, false, Some(Double), None, "", [])
  const CollectionSingleMapping := TypeMapping("Collection(Edm.Single)", FloatVector, Exact, true, None, None,
      "float32 vector, 1:1", [])
  const CollectionHalfMapping := TypeMapping("Collection(Edm.Half)", Float16Vector, Exact, true, None, None,
      "float16 vector, 1:1", [])
  const CollectionInt16Mapping := TypeMapping("Collection(Edm.Int16)", FloatVector, Lossy, true, None, None,
      "int16 upcast to float32",
      ["memory use doubles",
       "quantized form is lost"])
  const CollectionSByteMapping := TypeMapping("Collection(Edm.SByte)", FloatVector, Lossy, true, None, None,
      "int8 upcast to float32",
      ["memory use quadruples",
       "re-encode as float32"])
  const CollectionByteMapping := TypeMapping("Collection(Edm.Byte)", BinaryVector, Exact, true, None, None,
      "packed bits, 1:1", [])

  const ScalarTypeMap: Dict<string, TypeMapping> := [
    ("Edm.String", StringMapping),
    ("Edm.Int32", Int32Mapping),
    ("Edm.Int64", Int64Mapping),
    ("Edm.Double", DoubleMapping),
    ("Edm.Single", SingleMapping),
    ("Edm.Boolean", BooleanMapping),
    ("Edm.DateTimeOffset", DateTimeOffsetMapping),
    ("Edm.GeographyPoint", GeographyPointMapping),
    ("Edm.ComplexType", ComplexTypeMapping),
    ("Edm.Byte", ByteMapping),
    ("Edm.Int16", Int16Mapping),
    ("Edm.SByte", SByteMapping)
  ]

  const CollectionTypeMap: Dict<string, TypeMapping> := [
    ("Collection(Edm.String)", CollectionStringMapping),
    ("Collection(Edm.Int32)", CollectionInt32Mapping),
    ("Collection(Edm.Int64)", CollectionInt64Mapping),
    ("Collection(Edm.Double)", CollectionDoubleMapping)
  ]

  const VectorTypeMap: Dict<string, TypeMapping> := [
    ("Collection(Edm.Single)", CollectionSingleMapping),
    ("Collection(Edm.Half)", CollectionHalfMapping),
    ("Collection(Edm.Int16)", CollectionInt16Mapping),
    ("Collection(Edm.SByte)", CollectionSByteMapping),
    ("Collection(Edm.Byte)", CollectionByteMapping)
  ]

  // The advice reported for each unsupported feature.
  const ScoringProfilesAdvice := "rank in the application"
  const SuggestersAdvice := "use prefix queries"
  const SemanticConfigurationAdvice := "use a reranker model"
  const SkillsetsAdvice := "build ingestion apart"
  const IndexersAdvice := "use connectors or CDC"
  const SynonymMapsAdvice := "expand queries in the app"
  const EncryptionKeyAdvice := "use disk encryption"
  const GeoDistanceAdvice := "combine with PostGIS"

  /** Features of Azure AI Search with no Milvus counterpart, with the advice reported for each. */
  const UnsupportedFeatures: Dict<string, string> := [
    ("scoringProfiles", ScoringProfilesAdvice),
    ("suggesters", SuggestersAdvice),
    ("semanticConfiguration", SemanticConfigurationAdvice),
    ("skillsets", SkillsetsAdvice),
    ("indexers", IndexersAdvice),
    ("synonymMaps", SynonymMapsAdvice),
    ("encryptionKey", EncryptionKeyAdvice),
    ("geo.distance()", GeoDistanceAdvice)
  ]

  /** The JSON fallback for an identifier found in no table. */
  function UnknownMapping(edmType: string): (m: TypeMapping)
    ensures m.edmType == edmType && m.milvusType == Json && m.confidence == Unsupported
    ensures !m.isVector && m.elementType == None && |m.warnings| == 1
  {
    TypeMapping(edmType, Json, Unsupported, false, None, None,
      "unknown type '" + edmType + "' - JSON fallback",
      ["type '" + edmType + "' is not recognised and will be stored as JSON"])
  }

  predicate Known(edmType: string) {
    edmType in Keys(VectorTypeMap) || edmType in Keys(CollectionTypeMap) || edmType in Keys(ScalarTypeMap)
  }

  /** Every vector entry is filed under its own identifier, is a vector and
      targets one of the three vector types. */
  lemma VectorEntries()
    ensures forall i :: 0 <= i < |VectorTypeMap| ==>
      var m := VectorTypeMap[i].1;
      m.edmType == VectorTypeMap[i].0 && m.isVector && IsVectorType(m.milvusType)
      && m.elementType.None? && m.confidence != Unsupported
      && (m.confidence == Lossy <==> i == 2 || i == 3)
      && (m.confidence == Lossy ==> |m.warnings| == 2)
  {
  }

  /** Every collection entry is filed under its own identifier, is not a vector
      and targets ARRAY with an element type. */
  lemma CollectionEntries()
    ensures forall i :: 0 <= i < |CollectionTypeMap| ==>
      var m := CollectionTypeMap[i].1;
      m.edmType == CollectionTypeMap[i].0 && !m.isVector && m.milvusType == Array
      && m.elementType.Some? && m.confidence != Unsupported && m.confidence != Lossy
  {
  }

  /** Every scalar entry is filed under its own identifier, is not a vector and
      has no element type. */
  lemma ScalarEntries()
    ensures forall i :: 0 <= i < |ScalarTypeMap| ==>
      var m := ScalarTypeMap[i].1;
      m.edmType == ScalarTypeMap[i].0 && !m.isVector && !IsVectorType(m.milvusType)
      && m.elementType.None? && m.milvusType != Array && m.confidence != Unsupported && m.confidence != Lossy
  {
  }

  /** Every scalar identifier starts with "Edm.", every other one with "Collection(". */
  lemma TablePrefixes()
    ensures forall i :: 0 <= i < |ScalarTypeMap| ==> ScalarTypeMap[i].0[0] == 'E'
    ensures forall i :: 0 <= i < |CollectionTypeMap| ==> CollectionTypeMap[i].0[0] == 'C'
    ensures forall i :: 0 <= i < |VectorTypeMap| ==> VectorTypeMap[i].0[0] == 'C'
  {
  }

  lemma ScalarKeysUnique()
    ensures UniqueKeys(ScalarTypeMap)
  {
  }

  lemma CollectionVectorKeysUnique()
    ensures UniqueKeys(CollectionTypeMap) && UniqueKeys(VectorTypeMap)
    ensures forall i, j :: 0 <= i < |VectorTypeMap| && 0 <= j < |CollectionTypeMap| ==>
      VectorTypeMap[i].0 != CollectionTypeMap[j].0
  {
  }

  /** No identifier is filed in two tables, nor twice in one. */
  lemma TablesDisjoint()
    ensures UniqueKeys(ScalarTypeMap) && UniqueKeys(CollectionTypeMap) && UniqueKeys(VectorTypeMap)
    ensures forall k :: k in Keys(VectorTypeMap) ==> k !in Keys(CollectionTypeMap) && k !in Keys(ScalarTypeMap)
    ensures forall k :: k in Keys(CollectionTypeMap) ==> k !in Keys(ScalarTypeMap)
  {
    TablePrefixes();
    ScalarKeysUnique();
    CollectionVectorKeysUnique();
    forall k | k in Keys(VectorTypeMap) ensures k !in Keys(CollectionTypeMap) && k !in Keys(ScalarTypeMap) {
      var i :| 0 <= i < |VectorTypeMap| && Keys(VectorTypeMap)[i] == k;
      assert k == VectorTypeMap[i].0;
    }
    forall k | k in Keys(CollectionTypeMap) ensures k !in Keys(ScalarTypeMap) {
      var i :| 0 <= i < |CollectionTypeMap| && Keys(CollectionTypeMap)[i] == k;
      assert k == CollectionTypeMap[i].0;
    }
  }

  /** `resolve_type(edm_type, is_vector_field=...)`. The vector table is consulted
      first whatever the flag says, then the collection table, then the scalar
      table; anything else falls back to JSON. */
  function ResolveType(edmType: string, isVectorField: bool): (r: TypeMapping)
    ensures r.edmType == edmType
    ensures r.isVector <==> edmType in Keys(VectorTypeMap)
    ensures r.isVector ==> IsVectorType(r.milvusType)
    ensures r.elementType.Some? <==> edmType in Keys(CollectionTypeMap)
    ensures r.elementType.Some? <==> r.milvusType == Array
    ensures r.confidence == Unsupported <==> !Known(edmType)
    ensures !Known(edmType) ==> r == UnknownMapping(edmType)
  {
    VectorEntries(); CollectionEntries(); ScalarEntries(); TablesDisjoint();
    if isVectorField && Get(VectorTypeMap, edmType).Some? then
      Get(VectorTypeMap, edmType).value
    else if Get(VectorTypeMap, edmType).Some? then
      Get(VectorTypeMap, edmType).value
    else if Get(CollectionTypeMap, edmType).Some? then
      Get(CollectionTypeMap, edmType).value
    else if Get(ScalarTypeMap, edmType).Some? then
      Get(ScalarTypeMap, edmType).value
    else
      UnknownMapping(edmType)
  }

  /** `get_all_mappings()`: every table entry, scalar first, then collection, then vector. */
  function GetAllMappings(): (r: seq<TypeMapping>)
    ensures |r| == |ScalarTypeMap| + |CollectionTypeMap| + |VectorTypeMap| == 21
    ensures r == Values(ScalarTypeMap) + Values(CollectionTypeMap) + Values(VectorTypeMap)
    ensures forall i :: 0 <= i < |r| ==> r[i].edmType != ""
  {
    assert |ScalarTypeMap| == 12 && |CollectionTypeMap| == 4 && |VectorTypeMap| == 5;
    Values(ScalarTypeMap) + Values(CollectionTypeMap) + Values(VectorTypeMap)
  }

  /** The vector flag never changes the answer: a vector identifier is found in
      the vector table on both paths, and the other branches never read the flag. */
  lemma ResolveIgnoresVectorFlag(edmType: string)
    ensures ResolveType(edmType, true) == ResolveType(edmType, false)
  {
  }

  /** Every identifier of the vector table resolves to its own entry. */
  lemma ResolveVectorEntry(i: nat, flag: bool)
    requires i < |VectorTypeMap|
    ensures ResolveType(VectorTypeMap[i].0, flag) == VectorTypeMap[i].1
  {
    TablesDisjoint();
    GetUnique(VectorTypeMap, i);
  }

  /** Every identifier of the collection table resolves to its own entry. */
  lemma ResolveCollectionEntry(i: nat, flag: bool)
    requires i < |CollectionTypeMap|
    ensures ResolveType(CollectionTypeMap[i].0, flag) == CollectionTypeMap[i].1
  {
    TablesDisjoint();
    assert Keys(CollectionTypeMap)[i] == CollectionTypeMap[i].0;
    GetUnique(CollectionTypeMap, i);
  }

  /** Every identifier of the scalar table resolves to its own entry. */
  lemma ResolveScalarEntry(i: nat, flag: bool)
    requires i < |ScalarTypeMap|
    ensures ResolveType(ScalarTypeMap[i].0, flag) == ScalarTypeMap[i].1
  {
    TablesDisjoint();
    assert Keys(ScalarTypeMap)[i] == ScalarTypeMap[i].0;
    GetUnique(ScalarTypeMap, i);
  }

  /** Edm.Byte is widened to INT16 without loss; Edm.SByte maps exactly onto INT8. */
  lemma ResolveByteTypes(flag: bool)
    ensures var m := ResolveType("Edm.Byte", flag); m.milvusType == Int16 && m.confidence == Lossless
    ensures var m := ResolveType("Edm.SByte", flag); m.milvusType == Int8 && m.confidence == Exact
  {
    ResolveScalarEntry(9, flag);
    assert ScalarTypeMap[9].0 == "Edm.Byte";
    ResolveScalarEntry(11, flag);
    assert ScalarTypeMap[11].0 == "Edm.SByte";
  }

  /** Edm.DateTimeOffset becomes a VARCHAR of at most 64 characters, a semantic mapping. */
  lemma ResolveDateTimeOffset(flag: bool)
    ensures var m := ResolveType("Edm.DateTimeOffset", flag);
      m.milvusType == Varchar && m.confidence == Semantic && m.defaultMaxLength == Some(64)
      && |m.warnings| == 1
  {
    ResolveScalarEntry(6, flag);
    assert ScalarTypeMap[6].0 == "Edm.DateTimeOffset";
  }

  /** Collection(Edm.Byte) is an exact binary vector; Collection(Edm.Single) a float vector. */
  lemma ResolveVectorExamples(flag: bool)
    ensures var m := ResolveType("Collection(Edm.Byte)", flag);
      m.milvusType == BinaryVector && m.confidence == Exact && m.isVector
    ensures var m := ResolveType("Collection(Edm.Single)", flag);
      m.milvusType == FloatVector && m.confidence == Exact && m.isVector
  {
    ResolveVectorEntry(4, flag);
    assert VectorTypeMap[4].0 == "Collection(Edm.Byte)";
    ResolveVectorEntry(0, flag);
    assert VectorTypeMap[0].0 == "Collection(Edm.Single)";
  }

  /** A mapping is lossy exactly when it is one of the two quantized vector
      types, and a lossy mapping carries two warnings. */
  predicate LossyOnlyWhenQuantized(m: TypeMapping) {
    && (m.confidence == Lossy <==> m.edmType == "Collection(Edm.Int16)" || m.edmType == "Collection(Edm.SByte)")
    && (m.confidence == Lossy ==> |m.warnings| == 2)
  }

  /** The only lossy mappings are the two quantized vector types, and each
      carries exactly two warnings. */
  lemma LossyMappings()
    ensures forall m :: m in GetAllMappings() ==> LossyOnlyWhenQuantized(m)
  {
    var all := GetAllMappings();
    forall j | 0 <= j < |all| ensures LossyOnlyWhenQuantized(all[j]) {
      if j < 12 {
        ScalarEntries();
        TablePrefixes();
        assert all[j] == ScalarTypeMap[j].1;
      } else if j < 16 {
        CollectionEntries();
        TablePrefixes();
        assert all[j] == CollectionTypeMap[j - 12].1;
      } else {
        VectorEntries();
        assert all[j] == VectorTypeMap[j - 16].1;
      }
    }
  }
}

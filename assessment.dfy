/** The pre-migration assessment: counts over a schema conversion result,
    one detail record per field, index and warning, the Milvus advantages
    that apply, and the feasibility verdict. */
module Assessment {
  import opened Wrappers
  import opened PyDict
  import opened Values
  import opened Counting
  import opened TypeMappings
  import opened IndexMappings
  import opened SchemaModel

  /** `field_details` entry. The Milvus type and name are None where the
      dictionary holds "N/A" (see `TypeText` and `NameText`); `renamedTo` is
      present exactly when the dictionary has a "renamed_to" key. */
  datatype FieldDetail = FieldDetail(
    azureName: string,
    azureType: string,
    milvusType: Option<DataType>,
    milvusName: Option<string>,
    confidence: MappingConfidence,
    isVector: bool,
    isPrimaryKey: bool,
    skipped: bool,
    notes: string,
    renamedTo: Option<string>)

  /** `index_details` entry. */
  datatype IndexDetail = IndexDetail(
    azureProfile: string,
    azureAlgorithm: string,
    azureMetric: string,
    milvusIndexType: string,
    milvusMetricType: string,
    milvusParams: Dict<string, Value>,
    targetField: string)

  /** `warnings` entry. */
  datatype WarningDetail = WarningDetail(category: string, message: string, field: string)

  /** `applicable_advantages` entry. */
  datatype Advantage = Advantage(feature: string, description: string)

  datatype Feasibility = Full | Partial | Complex

  /** The verdict as the report spells it. */
  function FeasibilityValue(f: Feasibility): string {
    match f
    case Full => "full"
    case Partial => "partial"
    case Complex => "complex"
  }

  /** `AssessmentReport`, as `generate_assessment` returns it. */
  datatype AssessmentReport = AssessmentReport(
    indexName: string,
    generatedAt: string,
    documentCount: int,
    totalFields: nat,
    convertibleFields: nat,
    lossyFields: nat,
    skippedFields: nat,
    vectorFields: nat,
    unsupportedFeatures: seq<string>,
    warnings: seq<WarningDetail>,
    fieldDetails: seq<FieldDetail>,
    indexDetails: seq<IndexDetail>,
    applicableAdvantages: seq<Advantage>,
    migrationFeasibility: string)

  const NotApplicable := "N/A"

  // ---------------------------------------------------------------------
  // Details
  // ---------------------------------------------------------------------

  /** The detail of one field conversion. */
  function FieldDetailOf(fc: FieldConversion): FieldDetail {
    FieldDetail(
      fc.azureName, fc.azureType,
      if fc.milvusField.Some? then Some(fc.milvusField.value.dtype) else None,
      if fc.milvusField.Some? then Some(fc.milvusField.value.name) else None,
      fc.mapping.confidence, fc.mapping.isVector, fc.isPrimaryKey, fc.skipped, fc.mapping.notes,
      if fc.renamedTo != "" then Some(fc.renamedTo) else None)
  }

  /** The "milvus_type" entry of a detail. */
  function TypeText(d: FieldDetail): string {
    if d.milvusType.Some? then DataTypeName(d.milvusType.value) else NotApplicable
  }

  /** The "milvus_name" entry of a detail. */
  function NameText(d: FieldDetail): string {
    if d.milvusName.Some? then d.milvusName.value else NotApplicable
  }

  /** A detail carries the field's names, confidence and flags; its Milvus
      type is "N/A" exactly when the field has no target (no Milvus type name
      is "N/A"), and so is its Milvus name then; and it has a "renamed_to"
      entry exactly when the field was renamed. */
  lemma FieldDetailShape(fc: FieldConversion)
    ensures var d := FieldDetailOf(fc);
      && d.azureName == fc.azureName && d.azureType == fc.azureType
      && (TypeText(d) == NotApplicable <==> fc.milvusField.None?)
      && (fc.milvusField.None? ==> NameText(d) == NotApplicable)
      && (fc.milvusField.Some? ==>
            TypeText(d) == DataTypeName(fc.milvusField.value.dtype) && NameText(d) == fc.milvusField.value.name)
      && (d.renamedTo.Some? <==> fc.renamedTo != "")
      && (d.renamedTo.Some? ==> d.renamedTo.value == fc.renamedTo)
      && d.confidence == fc.mapping.confidence
      && d.isVector == fc.mapping.isVector && d.isPrimaryKey == fc.isPrimaryKey && d.skipped == fc.skipped
  {
    if fc.milvusField.Some? {
      assert DataTypeName(fc.milvusField.value.dtype) != NotApplicable;
    }
  }

  function IndexDetailOf(ic: IndexConversion): IndexDetail {
    IndexDetail(ic.azureProfileName, ic.azureAlgorithmKind, ic.azureMetric,
      ic.milvusConfig.indexType, ic.milvusConfig.metricType, ic.milvusConfig.params, ic.targetField)
  }

  function WarningDetailOf(w: ConversionWarning): WarningDetail {
    WarningDetail(w.category, w.message, w.fieldName)
  }

  // ---------------------------------------------------------------------
  // Counters and verdict
  // ---------------------------------------------------------------------

  /** A non-skipped field whose confidence is not UNSUPPORTED. */
  predicate Convertible(fc: FieldConversion) {
    !fc.skipped && fc.mapping.confidence != Unsupported
  }

  /** A non-skipped LOSSY field. */
  predicate LossyField(fc: FieldConversion) {
    !fc.skipped && fc.mapping.confidence == Lossy
  }

  /** The verdict from the three counters. */
  function Verdict(skipped: nat, lossy: nat, convertible: nat): Feasibility {
    if skipped == 0 && lossy == 0 then Full
    else if convertible > 0 then Partial
    else Complex
  }

  /** The verdict over the fields themselves. */
  function VerdictOf(fcs: seq<FieldConversion>): Feasibility {
    Verdict(Count(fcs, IsSkipped), Count(fcs, LossyField), Count(fcs, Convertible))
  }

  /** A lossy field is convertible, and a field is skipped or convertible
      or neither: the lossy count never exceeds the convertible count, and
      skipped and convertible fields together never exceed the total. */
  lemma CountersBounded(fcs: seq<FieldConversion>)
    ensures Count(fcs, LossyField) <= Count(fcs, Convertible)
    ensures Count(fcs, IsSkipped) + Count(fcs, Convertible) <= |fcs|
  {
    CountMonotone(fcs, LossyField, Convertible);
    CountDisjoint(fcs, IsSkipped, Convertible);
  }

  /** The verdict is "full" exactly when no field is skipped and none is
      lossy, whatever the UNSUPPORTED fields; "partial" when that fails but
      some field is convertible; "complex" when no field is convertible and
      some field is skipped or lossy. */
  lemma VerdictMeaning(fcs: seq<FieldConversion>)
    ensures VerdictOf(fcs) == Full <==>
      forall i :: 0 <= i < |fcs| ==> !fcs[i].skipped && fcs[i].mapping.confidence != Lossy
    ensures VerdictOf(fcs) == Partial <==>
      (exists i :: 0 <= i < |fcs| && (fcs[i].skipped || fcs[i].mapping.confidence == Lossy))
      && (exists i :: 0 <= i < |fcs| && Convertible(fcs[i]))
    ensures VerdictOf(fcs) == Complex <==>
      (exists i :: 0 <= i < |fcs| && (fcs[i].skipped || fcs[i].mapping.confidence == Lossy))
      && (forall i :: 0 <= i < |fcs| ==> !Convertible(fcs[i]))
  {
    CountZero(fcs, IsSkipped);
    CountZero(fcs, LossyField);
    CountZero(fcs, Convertible);
    if !(forall i :: 0 <= i < |fcs| ==> !fcs[i].skipped && fcs[i].mapping.confidence != Lossy) {
      var i :| 0 <= i < |fcs| && !(!fcs[i].skipped && fcs[i].mapping.confidence != Lossy);
      assert IsSkipped(fcs[i]) || LossyField(fcs[i]);
    }
  }

  // ---------------------------------------------------------------------
  // Advantages
  // ---------------------------------------------------------------------

  const IndexTypesAdvantage := Advantage("Rich index types",
    "besides HNSW and exhaustive KNN: IVF_FLAT, IVF_SQ8, IVF_PQ, SCANN, DiskANN, GPU_IVF_FLAT, GPU_CAGRA")
  const GpuAdvantage := Advantage("GPU acceleration",
    "GPU indexes such as GPU_IVF_FLAT and GPU_CAGRA on NVIDIA GPU virtual machines")
  const SparseAdvantage := Advantage("Sparse vectors (hybrid search)",
    "SPARSE_FLOAT_VECTOR for BM25 or SPLADE representations, combined with dense vectors")
  const RangeSearchAdvantage := Advantage("Range Search", "search by a distance threshold, not only top-K")
  const IteratorAdvantage := Advantage("Iterator API", "large result sets without the $skip limit of 100,000")
  const PartitionKeyAdvantage := Advantage("Partition key (multi-tenancy)",
    "native per-tenant data separation through a partition key")
  const DynamicSchemaAdvantage := Advantage("Dynamic Schema",
    "enable_dynamic_field=True stores fields outside the schema without rebuilding the index")
  const CostAdvantage := Advantage("Cost control", "self-hosted Milvus costs only its virtual machines")
  const CdcAdvantage := Advantage("CDC (Change Data Capture)", "captures data changes in real time")
  const NullDefaultAdvantage := Advantage("Null/Default value support (2.6.x)",
    "native NULL and default values")

  /** The advantages that apply only when the index has vector fields. */
  const VectorAdvantages := [IndexTypesAdvantage, GpuAdvantage, SparseAdvantage, RangeSearchAdvantage, IteratorAdvantage]

  /** The advantages that always apply. */
  const GeneralAdvantages := [PartitionKeyAdvantage, DynamicSchemaAdvantage, CostAdvantage, CdcAdvantage, NullDefaultAdvantage]

  /** Some field of the conversion maps to a vector. */
  predicate HasVectors(conversion: SchemaConversionResult) {
    exists i :: 0 <= i < |conversion.fieldConversions| && conversion.fieldConversions[i].mapping.isVector
  }

  /** The advantages that apply to a conversion. */
  function Advantages(conversion: SchemaConversionResult): seq<Advantage> {
    (if HasVectors(conversion) then VectorAdvantages else []) + GeneralAdvantages
  }

  /** Ten advantages when some field is a vector and five otherwise, the
      vector ones first and the general ones last. */
  lemma AdvantagesShape(conversion: SchemaConversionResult)
    ensures var a := Advantages(conversion);
      && |a| == (if HasVectors(conversion) then 10 else 5)
      && a[|a| - 5..] == GeneralAdvantages
      && (HasVectors(conversion) ==> a[..5] == VectorAdvantages)
  {
    var a := Advantages(conversion);
    assert a[|a| - 5..] == GeneralAdvantages;
    if HasVectors(conversion) {
      assert a[..5] == VectorAdvantages;
    }
  }

  /** `_identify_advantages`. (Its `has_large_text` flag is computed and
      never used.) */
  method IdentifyAdvantages(conversion: SchemaConversionResult) returns (advantages: seq<Advantage>)
    ensures advantages == Advantages(conversion)
  {
    advantages := [];
    var hasVectors := HasVectors(conversion);
    if hasVectors {
      advantages := advantages + [IndexTypesAdvantage];
      advantages := advantages + [GpuAdvantage];
      advantages := advantages + [SparseAdvantage];
      advantages := advantages + [RangeSearchAdvantage];
      advantages := advantages + [IteratorAdvantage];
    }
    advantages := advantages + [PartitionKeyAdvantage];
    advantages := advantages + [DynamicSchemaAdvantage];
    advantages := advantages + [CostAdvantage];
    advantages := advantages + [CdcAdvantage];
    advantages := advantages + [NullDefaultAdvantage];
  }

  // ---------------------------------------------------------------------
  // generate_assessment
  // ---------------------------------------------------------------------

  /** The five counters of `generate_assessment`. */
  datatype Tally = Tally(total: nat, skipped: nat, lossy: nat, convertible: nat, vectors: nat)

  /** One field's turn: counted; then skipped, or lossy and convertible, or
      convertible unless UNSUPPORTED; and a vector whether skipped or not. */
  function Counted(t: Tally, fc: FieldConversion): Tally {
    var t' :=
      if fc.skipped then t.(total := t.total + 1, skipped := t.skipped + 1)
      else if fc.mapping.confidence == Lossy then t.(total := t.total + 1, lossy := t.lossy + 1, convertible := t.convertible + 1)
      else if fc.mapping.confidence != Unsupported then t.(total := t.total + 1, convertible := t.convertible + 1)
      else t.(total := t.total + 1);
    if fc.mapping.isVector then t'.(vectors := t'.vectors + 1) else t'
  }

  /** The counters after the first `n` fields. */
  function TallyOf(fcs: seq<FieldConversion>, n: nat): Tally
    requires n <= |fcs|
  {
    if n == 0 then Tally(0, 0, 0, 0, 0) else Counted(TallyOf(fcs, n - 1), fcs[n - 1])
  }

  /** The counters count what they are named after: every field, the
      skipped ones, the lossy ones, the convertible ones and the vectors. */
  lemma {:induction false} TallyCounts(fcs: seq<FieldConversion>, n: nat)
    requires n <= |fcs|
    ensures TallyOf(fcs, n) == Tally(n, Count(fcs[..n], IsSkipped), Count(fcs[..n], LossyField),
                                     Count(fcs[..n], Convertible), Count(fcs[..n], IsVectorConversion))
  {
    if n > 0 {
      TallyCounts(fcs, n - 1);
      CountSnoc(fcs, n - 1, IsSkipped);
      CountSnoc(fcs, n - 1, LossyField);
      CountSnoc(fcs, n - 1, Convertible);
      CountSnoc(fcs, n - 1, IsVectorConversion);
    }
  }

  /** The details of the first `n` fields. */
  function DetailsOf(fcs: seq<FieldConversion>, n: nat): seq<FieldDetail>
    requires n <= |fcs|
  {
    if n == 0 then [] else DetailsOf(fcs, n - 1) + [FieldDetailOf(fcs[n - 1])]
  }

  /** One detail per field, in field order. */
  lemma {:induction false} DetailsInOrder(fcs: seq<FieldConversion>, n: nat)
    requires n <= |fcs|
    ensures |DetailsOf(fcs, n)| == n && forall i :: 0 <= i < n ==> DetailsOf(fcs, n)[i] == FieldDetailOf(fcs[i])
  {
    if n > 0 {
      DetailsInOrder(fcs, n - 1);
    }
  }

  /** The field loop of `generate_assessment`: one detail per field, in
      order, and the five counters. */
  method AnalyzeFields(fcs: seq<FieldConversion>)
    returns (details: seq<FieldDetail>, total: nat, skipped: nat, lossy: nat, convertible: nat, vectors: nat)
    ensures |details| == |fcs| && forall i :: 0 <= i < |fcs| ==> details[i] == FieldDetailOf(fcs[i])
    ensures total == |fcs|
    ensures skipped == Count(fcs, IsSkipped) && lossy == Count(fcs, LossyField)
    ensures convertible == Count(fcs, Convertible) && vectors == Count(fcs, IsVectorConversion)
  {
    details, total, skipped, lossy, convertible, vectors := [], 0, 0, 0, 0, 0;
    for i := 0 to |fcs|
      invariant details == DetailsOf(fcs, i)
      invariant Tally(total, skipped, lossy, convertible, vectors) == TallyOf(fcs, i)
    {
      var fc := fcs[i];
      details := details + [FieldDetailOf(fc)];
      total := total + 1;
      if fc.skipped {
        skipped := skipped + 1;
      } else if fc.mapping.confidence == Lossy {
        lossy := lossy + 1;
        convertible := convertible + 1;
      } else if fc.mapping.confidence != Unsupported {
        convertible := convertible + 1;
      }
      if fc.mapping.isVector {
        vectors := vectors + 1;
      }
    }
    DetailsInOrder(fcs, |fcs|);
    TallyCounts(fcs, |fcs|);
    assert fcs[..|fcs|] == fcs;
  }

  /** The index loop of `generate_assessment`: one detail per index
      conversion, in order. */
  method DescribeIndexes(ics: seq<IndexConversion>) returns (details: seq<IndexDetail>)
    ensures |details| == |ics| && forall i :: 0 <= i < |ics| ==> details[i] == IndexDetailOf(ics[i])
  {
    details := [];
    for i := 0 to |ics|
      invariant |details| == i && forall k :: 0 <= k < i ==> details[k] == IndexDetailOf(ics[k])
    {
      details := details + [IndexDetailOf(ics[i])];
    }
  }

  /** The warning loop of `generate_assessment`: one entry per conversion
      warning, in order. */
  method DescribeWarnings(ws: seq<ConversionWarning>) returns (details: seq<WarningDetail>)
    ensures |details| == |ws| && forall i :: 0 <= i < |ws| ==> details[i] == WarningDetailOf(ws[i])
  {
    details := [];
    for i := 0 to |ws|
      invariant |details| == i && forall k :: 0 <= k < i ==> details[k] == WarningDetailOf(ws[k])
    {
      details := details + [WarningDetailOf(ws[i])];
    }
  }

  /** `generate_assessment`, with the report's creation time as a parameter. */
  method GenerateAssessment(conversion: SchemaConversionResult, documentCount: int, generatedAt: string)
    returns (report: AssessmentReport)
    ensures var fcs := conversion.fieldConversions;
      && report.indexName == conversion.azureIndexName && report.documentCount == documentCount
      && report.generatedAt == generatedAt
      && report.totalFields == |fcs| && |report.fieldDetails| == |fcs|
      && (forall i :: 0 <= i < |fcs| ==> report.fieldDetails[i] == FieldDetailOf(fcs[i]))
      && report.skippedFields == Count(fcs, IsSkipped)
      && report.lossyFields == Count(fcs, LossyField)
      && report.convertibleFields == Count(fcs, Convertible)
      && report.vectorFields == Count(fcs, IsVectorConversion)
      && report.migrationFeasibility == FeasibilityValue(VerdictOf(fcs))
    ensures |report.indexDetails| == |conversion.indexConversions|
    ensures forall i :: 0 <= i < |conversion.indexConversions| ==>
      report.indexDetails[i] == IndexDetailOf(conversion.indexConversions[i])
    ensures |report.warnings| == |conversion.warnings|
    ensures forall i :: 0 <= i < |conversion.warnings| ==> report.warnings[i] == WarningDetailOf(conversion.warnings[i])
    ensures report.unsupportedFeatures == conversion.unsupportedFeatures
    ensures report.applicableAdvantages == Advantages(conversion)
  {
    var details, total, skipped, lossy, convertible, vectors := AnalyzeFields(conversion.fieldConversions);

    var indexDetails := DescribeIndexes(conversion.indexConversions);
    var warnings := DescribeWarnings(conversion.warnings);
    var advantages := IdentifyAdvantages(conversion);

    var feasibility;
    if skipped == 0 && lossy == 0 {
      feasibility := "full";
    } else if convertible > 0 {
      feasibility := "partial";
    } else {
      feasibility := "complex";
    }

    report := AssessmentReport(
      conversion.azureIndexName, generatedAt, documentCount,
      total, convertible, lossy, skipped, vectors,
      conversion.unsupportedFeatures, warnings, details, indexDetails, advantages, feasibility);
  }
}

/** The schema converter: one field conversion per source field (exclusion,
    renaming, primary-key and parameter rules), the Milvus index derived for
    each vector field, and the warnings about what does not carry over. */
module SchemaConversion {
  import opened Wrappers
  import opened PyDict
  import opened Values
  import opened Counting
  import opened TypeMappings
  import opened IndexMappings
  import opened Config
  import opened SchemaModel
  import JsonAdapter

  // ---------------------------------------------------------------------
  // Names
  // ---------------------------------------------------------------------

  /** `field_overrides.get(name, {})`. */
  function OverrideOf(o: MigrationOptions, name: string): FieldOverride {
    Get(o.fieldOverrides, name).GetOr(NoOverride)
  }

  /** The Milvus name of a source field: the override's `milvus_name`, else its own name. */
  function TargetName(o: MigrationOptions, name: string): string {
    OverrideOf(o, name).milvusName.GetOr(name)
  }

  /** `name.replace("-", "_")`. */
  function ReplaceHyphens(s: string): (r: string)
    ensures |r| == |s|
    ensures forall i :: 0 <= i < |s| ==> r[i] == (if s[i] == '-' then '_' else s[i])
    ensures '-' !in r
  {
    seq(|s|, i requires 0 <= i < |s| => if s[i] == '-' then '_' else s[i])
  }

  const CollectionNameKey := "__collection_name__"

  /** The collection name: the `milvus_name` of the "__collection_name__"
      override, else the index name with every '-' replaced by '_'. */
  function CollectionName(o: MigrationOptions, indexName: string): (r: string)
    ensures OverrideOf(o, CollectionNameKey).milvusName.Some? ==> r == OverrideOf(o, CollectionNameKey).milvusName.value
    ensures OverrideOf(o, CollectionNameKey).milvusName.None? ==> r == ReplaceHyphens(indexName) && '-' !in r
  {
    OverrideOf(o, CollectionNameKey).milvusName.GetOr(ReplaceHyphens(indexName))
  }

  // ---------------------------------------------------------------------
  // One field
  // ---------------------------------------------------------------------

  const ExcludedReason := "excluded by exclude_fields"

  function Description(name: string, edmType: string): string {
    "Migrated from Azure field: " + name + " (" + edmType + ")"
  }

  predicate StartsWith(s: string, prefix: string) {
    |prefix| <= |s| && s[..|prefix|] == prefix
  }

  /** The `is_vector_field` hint the converter computes and the resolver ignores. */
  predicate VectorHint(f: SourceField, edmType: string) {
    f.vectorProfile.Some? || (StartsWith(edmType, "Collection(Edm.") && f.dimensions.Some?)
  }

  /** `mapping.default_max_length or varchar_max_length` (an unset or zero default is falsy). */
  function DefaultMaxLength(m: TypeMapping, o: MigrationOptions): int {
    if m.defaultMaxLength.Some? && m.defaultMaxLength.value != 0 then m.defaultMaxLength.value else o.varcharMaxLength
  }

  predicate PrimaryKeyType(t: DataType) {
    t == Int64 || t == Varchar
  }

  /** The declared type: a key whose mapped type cannot be a Milvus primary key becomes VARCHAR. */
  function DeclaredType(isKey: bool, m: TypeMapping): (t: DataType)
    ensures isKey ==> PrimaryKeyType(t)
    ensures !isKey ==> t == m.milvusType
  {
    if isKey && !PrimaryKeyType(m.milvusType) then Varchar else m.milvusType
  }

  /** The `max_length` passed to the field schema: an ARRAY of VARCHAR and a
      VARCHAR take the override or their default, and a key forced to VARCHAR
      takes the global limit. */
  function MaxLengthOf(o: MigrationOptions, isKey: bool, m: TypeMapping, ov: FieldOverride): Option<int> {
    if m.milvusType == Array && m.elementType == Some(Varchar) then Some(ov.maxLength.GetOr(o.varcharMaxLength))
    else if m.milvusType == Varchar then Some(ov.maxLength.GetOr(DefaultMaxLength(m, o)))
    else if isKey && !PrimaryKeyType(m.milvusType) then Some(o.varcharMaxLength)
    else None
  }

  /** The field schema of a field that is not excluded, parameter by parameter. */
  function FieldSchemaOf(o: MigrationOptions, f: SourceField, edmType: string, m: TypeMapping): FieldSchema {
    var ov := OverrideOf(o, f.name);
    var dtype := DeclaredType(f.isKey, m);
    FieldSchema(
      TargetName(o, f.name),
      dtype,
      Description(f.name, edmType),
      f.isKey,
      MaxLengthOf(o, f.isKey, m, ov),
      if m.isVector && f.dimensions.Some? && f.dimensions.value != 0 then f.dimensions else None,
      if m.milvusType == Array then Some(m.elementType.GetOr(Varchar)) else None,
      if m.milvusType == Array then Some(ov.maxCapacity.GetOr(o.arrayMaxCapacity)) else None,
      o.partitionKeyField == f.name && PrimaryKeyType(dtype))
  }

  /** The conversion of one source field: skipped exactly when excluded, and
      then without a target. */
  function ConvertedField(o: MigrationOptions, f: SourceField): (r: FieldConversion)
    ensures r.azureName == f.name
    ensures r.skipped <==> f.name in o.excludeFields
    ensures r.skipped <==> r.milvusField.None?
    ensures r.isPrimaryKey ==> !r.skipped
  {
    if f.name in o.excludeFields then
      FieldConversion(f.name, f.edmType, None, ResolveType(f.edmType, false), true, ExcludedReason, "", false)
    else
      var edmType := if f.hasSubFields then "Edm.ComplexType" else f.edmType;
      var m := ResolveType(edmType, VectorHint(f, edmType));
      var target := TargetName(o, f.name);
      FieldConversion(f.name, edmType, Some(FieldSchemaOf(o, f, edmType, m)), m, false, "",
        if target != f.name then target else "", f.isKey)
  }

  /** An excluded field is skipped with no target and never counts as a key;
      any other field gets a target named after its override, a key type
      Milvus accepts, and a partition key only where Milvus allows one. The
      vector hint never changes the mapping. */
  lemma ConvertedFieldShape(o: MigrationOptions, f: SourceField)
    ensures var r := ConvertedField(o, f);
      && (f.name in o.excludeFields ==>
        && !r.isPrimaryKey && r.renamedTo == ""
        && r.azureType == f.edmType && r.mapping == ResolveType(f.edmType, false))
      && (f.name !in o.excludeFields ==>
        && r.isPrimaryKey == f.isKey
        && r.azureType == (if f.hasSubFields then "Edm.ComplexType" else f.edmType)
        && r.mapping == ResolveType(r.azureType, false)
        && r.milvusField.value.name == TargetName(o, f.name)
        && (TargetName(o, f.name) != f.name ==> r.renamedTo == TargetName(o, f.name))
        && (TargetName(o, f.name) == f.name ==> r.renamedTo == "")
        && r.milvusField.value.isPrimary == f.isKey
        && (f.isKey ==> PrimaryKeyType(r.milvusField.value.dtype))
        && (r.milvusField.value.isPartitionKey <==>
              f.name == o.partitionKeyField && PrimaryKeyType(r.milvusField.value.dtype)))
  {
    if f.name !in o.excludeFields {
      var edmType := if f.hasSubFields then "Edm.ComplexType" else f.edmType;
      ResolveIgnoresVectorFlag(edmType);
    }
  }

  /** The parameter rules of a converted field. */
  lemma FieldParameters(o: MigrationOptions, f: SourceField)
    requires f.name !in o.excludeFields
    ensures var r := ConvertedField(o, f); var s := r.milvusField.value; var m := r.mapping;
      var ov := OverrideOf(o, f.name);
      && (f.isKey && !PrimaryKeyType(m.milvusType) && m.milvusType != Array ==>
            s.dtype == Varchar && s.maxLength == Some(o.varcharMaxLength))
      && (m.milvusType == Varchar ==>
            s.dtype == Varchar && s.maxLength == Some(ov.maxLength.GetOr(DefaultMaxLength(m, o))))
      && (m.milvusType == Array ==>
            && s.elementType == m.elementType && s.elementType.Some?
            && s.maxCapacity == Some(ov.maxCapacity.GetOr(o.arrayMaxCapacity))
            && (m.elementType == Some(Varchar) ==> s.maxLength == Some(ov.maxLength.GetOr(o.varcharMaxLength))))
      && (m.milvusType != Array ==> s.elementType.None? && s.maxCapacity.None?)
      && (!f.isKey && m.milvusType != Varchar && m.milvusType != Array ==> s.maxLength.None?)
      && (s.dim.Some? <==> m.isVector && f.dimensions.Some? && f.dimensions.value != 0)
      && (s.dim.Some? ==> s.dim == f.dimensions)
  {
  }

  /** A key field of type Edm.Int32 is declared as a VARCHAR primary key of the
      global maximum length, even when an override names another length. */
  lemma Int32KeyBecomesVarchar(o: MigrationOptions, f: SourceField)
    requires f.name !in o.excludeFields && f.isKey && f.edmType == "Edm.Int32" && !f.hasSubFields
    ensures var s := ConvertedField(o, f).milvusField.value;
      s.isPrimary && s.dtype == Varchar && s.maxLength == Some(o.varcharMaxLength)
  {
    ResolveScalarEntry(1, false);
    assert ScalarTypeMap[1].0 == "Edm.Int32";
    FieldParameters(o, f);
  }

  /** Edm.DateTimeOffset becomes a VARCHAR of at most 64 characters unless overridden. */
  lemma DateTimeOffsetLength(o: MigrationOptions, f: SourceField)
    requires f.name !in o.excludeFields && f.edmType == "Edm.DateTimeOffset" && !f.hasSubFields
    ensures var s := ConvertedField(o, f).milvusField.value;
      s.dtype == Varchar && s.maxLength == Some(OverrideOf(o, f.name).maxLength.GetOr(64))
  {
    ResolveDateTimeOffset(false);
    FieldParameters(o, f);
  }

  /** A field with sub-fields is flattened to a JSON field whatever its declared type. */
  lemma SubFieldsBecomeJson(o: MigrationOptions, f: SourceField)
    requires f.name !in o.excludeFields && f.hasSubFields
    ensures var r := ConvertedField(o, f);
      r.azureType == "Edm.ComplexType" && r.mapping.milvusType == Json && r.mapping.confidence == Semantic
      && (!f.isKey ==> r.milvusField.value.dtype == Json)
  {
    ResolveScalarEntry(8, false);
    assert ScalarTypeMap[8].0 == "Edm.ComplexType";
  }

  /** With the default options every field is converted under its own name. */
  lemma DefaultOptionsKeepNames(f: SourceField)
    ensures var r := ConvertedField(DefaultOptions, f);
      !r.skipped && r.milvusField.value.name == f.name && r.renamedTo == ""
  {
  }

  // ---------------------------------------------------------------------
  // Vector search configuration
  // ---------------------------------------------------------------------

  /** What the converter records about one algorithm: its kind, the HNSW
      parameters (m, efConstruction, efSearch) and the metric, which the
      exhaustive-KNN parameters set after, and so over, the HNSW one. The
      metric is kept apart from the other parameters because its only
      reader separates them again. */
  datatype AlgorithmEntry = AlgorithmEntry(kind: string, hnswParams: Dict<string, Value>, metric: Option<string>)

  function EntryOf(a: VectorAlgorithm): (e: AlgorithmEntry)
    ensures e.kind == a.kind
    ensures a.exhaustiveKnnMetric.Some? ==> e.metric == a.exhaustiveKnnMetric
    ensures a.exhaustiveKnnMetric.None? && a.hnsw.Some? ==> e.metric == Some(a.hnsw.value.metric)
    ensures a.exhaustiveKnnMetric.None? && a.hnsw.None? ==> e.metric.None?
    ensures a.hnsw.None? ==> e.hnswParams == []
  {
    AlgorithmEntry(
      a.kind,
      match a.hnsw
      case Some(h) => [("m", h.m), ("efConstruction", h.efConstruction), ("efSearch", h.efSearch)]
      case None => [],
      if a.exhaustiveKnnMetric.Some? then a.exhaustiveKnnMetric
      else if a.hnsw.Some? then Some(a.hnsw.value.metric)
      else None)
  }

  /** The algorithms dict after its loop, one `algorithms[name] = entry` per algorithm. */
  function AlgorithmsOf(algos: seq<VectorAlgorithm>): Dict<string, AlgorithmEntry> {
    if algos == [] then []
    else Set(AlgorithmsOf(algos[..|algos| - 1]), algos[|algos| - 1].name, EntryOf(algos[|algos| - 1]))
  }

  /** The profiles dict after its loop: profile name to algorithm name. */
  function ProfilesOf(ps: seq<VectorProfile>): Dict<string, string> {
    if ps == [] then []
    else Set(ProfilesOf(ps[..|ps| - 1]), ps[|ps| - 1].name, ps[|ps| - 1].algorithm)
  }

  /** An algorithm name is known exactly when some algorithm carries it. */
  lemma {:induction false} AlgorithmsKnown(algos: seq<VectorAlgorithm>, name: string)
    ensures Get(AlgorithmsOf(algos), name).Some? <==> exists i :: 0 <= i < |algos| && algos[i].name == name
    decreases |algos|
  {
    if algos != [] {
      var n := |algos| - 1;
      var pre := algos[..n];
      AlgorithmsKnown(pre, name);
      var d := AlgorithmsOf(pre);
      assert AlgorithmsOf(algos) == Set(d, algos[n].name, EntryOf(algos[n]));
      assert name in Keys(AlgorithmsOf(algos)) <==> name in Keys(d) || name == algos[n].name;
      assert forall i :: 0 <= i < n ==> pre[i] == algos[i];
    }
  }

  /** A known algorithm name stands for the LAST algorithm of that name. */
  lemma {:induction false} AlgorithmsLastWins(algos: seq<VectorAlgorithm>, name: string, i: nat)
    requires i < |algos| && algos[i].name == name
    requires forall j :: i < j < |algos| ==> algos[j].name != name
    ensures Get(AlgorithmsOf(algos), name) == Some(EntryOf(algos[i]))
    decreases |algos|
  {
    var n := |algos| - 1;
    var pre := algos[..n];
    assert AlgorithmsOf(algos) == Set(AlgorithmsOf(pre), algos[n].name, EntryOf(algos[n]));
    SetGet(AlgorithmsOf(pre), algos[n].name, EntryOf(algos[n]), name);
    if i < n {
      assert pre[i] == algos[i];
      assert forall j :: i < j < |pre| ==> pre[j].name != name;
      AlgorithmsLastWins(pre, name, i);
    }
  }

  lemma {:induction false} ProfilesUnique(ps: seq<VectorProfile>)
    ensures UniqueKeys(ProfilesOf(ps))
    decreases |ps|
  {
    if ps != [] {
      ProfilesUnique(ps[..|ps| - 1]);
      SetUnique(ProfilesOf(ps[..|ps| - 1]), ps[|ps| - 1].name, ps[|ps| - 1].algorithm);
    }
  }

  function ProfilesOfIndex(index: SourceIndex): Dict<string, string> {
    if index.vectorSearch.Some? then ProfilesOf(index.vectorSearch.value.profiles) else []
  }

  function AlgorithmsOfIndex(index: SourceIndex): Dict<string, AlgorithmEntry> {
    if index.vectorSearch.Some? then AlgorithmsOf(index.vectorSearch.value.algorithms) else []
  }

  /** The position of the first profile, at or after `from`, whose algorithm is known. */
  function FirstResolvableFrom(ps: Dict<string, string>, algos: Dict<string, AlgorithmEntry>, from: nat): (r: Option<nat>)
    ensures r.Some? ==> from <= r.value < |ps| && ps[r.value].1 in Keys(algos)
    ensures r.Some? ==> forall k :: from <= k < r.value ==> ps[k].1 !in Keys(algos)
    ensures r.None? ==> forall k :: from <= k < |ps| ==> ps[k].1 !in Keys(algos)
    decreases |ps| - from
  {
    if from >= |ps| then None
    else if ps[from].1 in Keys(algos) then Some(from)
    else FirstResolvableFrom(ps, algos, from + 1)
  }

  /** The profile every vector field is given: its name, the algorithm kind,
      the metric and the HNSW parameters; hnsw, cosine and no parameters under
      the empty profile name when no profile resolves. */
  datatype ProfileChoice = ProfileChoice(profileName: string, kind: string, metric: string, hnswParams: Dict<string, Value>)

  function ChosenProfile(ps: Dict<string, string>, algos: Dict<string, AlgorithmEntry>): (c: ProfileChoice)
    ensures FirstResolvableFrom(ps, algos, 0).None? ==> c == ProfileChoice("", "hnsw", "cosine", [])
    ensures FirstResolvableFrom(ps, algos, 0).Some? ==>
      var j := FirstResolvableFrom(ps, algos, 0).value;
      var e := Get(algos, ps[j].1).value;
      c == ProfileChoice(ps[j].0, e.kind, e.metric.GetOr("cosine"), e.hnswParams)
  {
    match FirstResolvableFrom(ps, algos, 0)
    case None => ProfileChoice("", "hnsw", "cosine", [])
    case Some(j) =>
      var e := Get(algos, ps[j].1).value;
      ProfileChoice(ps[j].0, e.kind, e.metric.GetOr("cosine"), e.hnswParams)
  }

  predicate Indexed(fc: FieldConversion) {
    fc.mapping.isVector && !fc.skipped
  }

  function TargetField(fc: FieldConversion): string {
    if fc.milvusField.Some? then fc.milvusField.value.name else fc.azureName
  }

  /** The index conversion of one vector field under the chosen profile; HNSW
      parameters are passed only for the hnsw kind. */
  function IndexConversionFor(fc: FieldConversion, c: ProfileChoice): IndexConversion {
    IndexConversion(c.profileName, c.kind, c.metric,
      MapVectorIndex(c.kind, c.metric, if c.kind == "hnsw" then Some(c.hnswParams) else None),
      TargetField(fc))
  }

  function IndexConversionsOf(fcs: seq<FieldConversion>, c: ProfileChoice): seq<IndexConversion> {
    if fcs == [] then []
    else (IndexConversionsOf(fcs[..|fcs| - 1], c)
      + (if Indexed(fcs[|fcs| - 1]) then [IndexConversionFor(fcs[|fcs| - 1], c)] else []))
  }

  /** One index conversion per non-skipped vector field, all of them under the
      same profile, each aimed at the Milvus name of some such field. */
  lemma {:induction false} IndexConversionsShape(fcs: seq<FieldConversion>, c: ProfileChoice)
    ensures |IndexConversionsOf(fcs, c)| == Count(fcs, Indexed)
    ensures forall k :: 0 <= k < |IndexConversionsOf(fcs, c)| ==>
      var ic := IndexConversionsOf(fcs, c)[k];
      && ic.azureProfileName == c.profileName && ic.azureAlgorithmKind == c.kind && ic.azureMetric == c.metric
      && exists j :: 0 <= j < |fcs| && Indexed(fcs[j]) && ic == IndexConversionFor(fcs[j], c)
    decreases |fcs|
  {
    if fcs != [] {
      var n := |fcs| - 1;
      IndexConversionsShape(fcs[..n], c);
      var pre := IndexConversionsOf(fcs[..n], c);
      var all := IndexConversionsOf(fcs, c);
      forall k | 0 <= k < |all|
        ensures exists j :: 0 <= j < |fcs| && Indexed(fcs[j]) && all[k] == IndexConversionFor(fcs[j], c)
      {
        if k < |pre| {
          assert all[k] == pre[k];
          var j :| 0 <= j < n && Indexed(fcs[..n][j]) && pre[k] == IndexConversionFor(fcs[..n][j], c);
          assert fcs[..n][j] == fcs[j];
        } else {
          assert all[k] == IndexConversionFor(fcs[n], c);
        }
      }
    }
  }

  // ---------------------------------------------------------------------
  // Warnings
  // ---------------------------------------------------------------------

  const UnsupportedCategory := "unsupported_feature"

  /** The feature keys `_check_unsupported_features` reports. */
  const ScoringProfilesKey := "scoringProfiles"
  const SuggestersKey := "suggesters"
  const SemanticKey := "semanticConfiguration"

  /** `UNSUPPORTED_FEATURES.get(key, "<key> is not migrated")`. */
  function FeatureMessage(key: string): string {
    Get(UnsupportedFeatures, key).GetOr(key + " is not migrated")
  }

  function UnsupportedWarning(key: string): (w: ConversionWarning)
    ensures w.category == UnsupportedCategory && w.fieldName == ""
  {
    ConversionWarning(UnsupportedCategory, FeatureMessage(key), "")
  }

  /** The features `_check_unsupported_features` adds to a list that already
      holds `prior`: each present attribute in turn, then semantic search
      when semantic configuration is not listed yet. */
  function UnsupportedFound(index: SourceIndex, prior: seq<string>): seq<string> {
    var first := AttributesFound(index, 3);
    first + (if index.hasSemanticSearch && SemanticKey !in prior + first then [SemanticKey] else [])
  }

  /** The attributes `_check_unsupported_features` inspects, in order, with
      the feature key each one reports. */
  function AttributeChecks(index: SourceIndex): (c: seq<(bool, string)>)
    ensures |c| == 3
  {
    [(index.hasScoringProfiles, ScoringProfilesKey), (index.hasSuggesters, SuggestersKey),
     (index.hasSemanticSettings, SemanticKey)]
  }

  /** The features found among the first `n` of the three checked attributes. */
  function AttributesFound(index: SourceIndex, n: nat): seq<string>
    requires n <= 3
  {
    if n == 0 then []
    else
      var (present, key) := AttributeChecks(index)[n - 1];
      AttributesFound(index, n - 1) + (if present then [key] else [])
  }

  function UnsupportedWarnings(keys: seq<string>): (ws: seq<ConversionWarning>)
    ensures |ws| == |keys|
    ensures forall i :: 0 <= i < |keys| ==> ws[i] == UnsupportedWarning(keys[i])
  {
    seq(|keys|, i requires 0 <= i < |keys| => UnsupportedWarning(keys[i]))
  }

  /** Reporting one more feature appends one warning. */
  lemma UnsupportedWarningsSnoc(keys: seq<string>, key: string)
    ensures UnsupportedWarnings(keys + [key]) == UnsupportedWarnings(keys) + [UnsupportedWarning(key)]
  {
  }

  /** The three checked attributes contribute their features in order. */
  lemma AttributesFoundInOrder(index: SourceIndex)
    ensures AttributesFound(index, 3) ==
      (if index.hasScoringProfiles then [ScoringProfilesKey] else [])
      + (if index.hasSuggesters then [SuggestersKey] else [])
      + (if index.hasSemanticSettings then [SemanticKey] else [])
  {
    assert AttributesFound(index, 1) == (if index.hasScoringProfiles then [ScoringProfilesKey] else []) by {
      assert AttributesFound(index, 0) == [];
    }
  }

  /** Starting from an empty list, every feature is reported at most once, in
      the order scoring profiles, suggesters, semantic configuration, and a
      feature is reported exactly when its attribute is present. */
  lemma UnsupportedOnce(index: SourceIndex)
    ensures var u := UnsupportedFound(index, []);
      && (forall i, j :: 0 <= i < j < |u| ==> u[i] != u[j])
      && (ScoringProfilesKey in u <==> index.hasScoringProfiles)
      && (SuggestersKey in u <==> index.hasSuggesters)
      && (SemanticKey in u <==> index.hasSemanticSettings || index.hasSemanticSearch)
      && (forall k :: k in u ==> k in Keys(UnsupportedFeatures))
      && |u| <= 3
  {
    AttributesFoundInOrder(index);
    var ks := Keys(UnsupportedFeatures);
    assert ks[0] == ScoringProfilesKey && ks[1] == SuggestersKey && ks[2] == SemanticKey;
  }

  const LossyCategory := "type_lossy"
  const TypeMappingCategory := "type_mapping"
  const SchemaCategory := "schema"

  /** The warnings one field contributes: each warning of its mapping, then
      one more when the mapping is lossy. */
  function FieldWarnings(fc: FieldConversion): (ws: seq<ConversionWarning>)
    ensures |ws| == |fc.mapping.warnings| + (if fc.mapping.confidence == Lossy then 1 else 0)
    ensures forall w :: w in ws ==> w.fieldName == fc.azureName && w.category in {TypeMappingCategory, LossyCategory}
    ensures forall i :: 0 <= i < |fc.mapping.warnings| ==>
      ws[i] == ConversionWarning(TypeMappingCategory, fc.mapping.warnings[i], fc.azureName)
    ensures fc.mapping.confidence == Lossy ==> ws[|ws| - 1] == LossyWarning(fc)
  {
    TypeWarnings(fc, |fc.mapping.warnings|) + (if fc.mapping.confidence == Lossy then [LossyWarning(fc)] else [])
  }

  /** The first `k` mapping warnings of a field, as conversion warnings. */
  function TypeWarnings(fc: FieldConversion, k: nat): (ws: seq<ConversionWarning>)
    requires k <= |fc.mapping.warnings|
    ensures |ws| == k
    ensures forall i :: 0 <= i < k ==> ws[i] == ConversionWarning(TypeMappingCategory, fc.mapping.warnings[i], fc.azureName)
  {
    seq(k, i requires 0 <= i < k => ConversionWarning(TypeMappingCategory, fc.mapping.warnings[i], fc.azureName))
  }

  function LossyWarning(fc: FieldConversion): ConversionWarning {
    ConversionWarning(LossyCategory, "field '" + fc.azureName + "' (" + fc.azureType + ") is a lossy conversion", fc.azureName)
  }

  function MappingWarnings(fcs: seq<FieldConversion>): (ws: seq<ConversionWarning>)
    ensures forall w :: w in ws ==> w.category in {TypeMappingCategory, LossyCategory}
  {
    if fcs == [] then [] else MappingWarnings(fcs[..|fcs| - 1]) + FieldWarnings(fcs[|fcs| - 1])
  }

  /** One step of the loop that collects the mapping warnings. */
  lemma MappingWarningsStep(fcs: seq<FieldConversion>, i: nat)
    requires i < |fcs|
    ensures MappingWarnings(fcs[..i + 1]) == MappingWarnings(fcs[..i]) + FieldWarnings(fcs[i])
  {
    assert fcs[..i + 1][..i] == fcs[..i];
  }

  lemma TypeWarningsSnoc(fc: FieldConversion, k: nat)
    requires k < |fc.mapping.warnings|
    ensures TypeWarnings(fc, k + 1)
      == TypeWarnings(fc, k) + [ConversionWarning(TypeMappingCategory, fc.mapping.warnings[k], fc.azureName)]
  {
  }

  lemma AppendAssoc<T>(a: seq<T>, b: seq<T>, c: seq<T>)
    ensures a + b + c == a + (b + c)
  {
  }

  predicate IsLossy(fc: FieldConversion) { fc.mapping.confidence == Lossy }
  predicate IsLossyWarning(w: ConversionWarning) { w.category == LossyCategory }

  /** A field contributes one "type_lossy" warning when its mapping is lossy
      and none otherwise. */
  lemma FieldLossyWarnings(fc: FieldConversion)
    ensures Count(FieldWarnings(fc), IsLossyWarning) == if IsLossy(fc) then 1 else 0
  {
    var tw := TypeWarnings(fc, |fc.mapping.warnings|);
    var extra := if IsLossy(fc) then [LossyWarning(fc)] else [];
    assert LossyCategory[5] != TypeMappingCategory[5];
    CountZero(tw, IsLossyWarning);
    CountAppend(tw, extra, IsLossyWarning);
    assert FieldWarnings(fc) == tw + extra;
    if IsLossy(fc) {
      assert extra[..0] == [];
    }
  }

  /** There are exactly as many "type_lossy" warnings as lossy fields,
      skipped or not. */
  lemma {:induction false} MappingWarningsCoverLossy(fcs: seq<FieldConversion>)
    ensures |MappingWarnings(fcs)| >= Count(fcs, IsLossy)
    ensures Count(MappingWarnings(fcs), IsLossyWarning) == Count(fcs, IsLossy)
    decreases |fcs|
  {
    if fcs != [] {
      var init := fcs[..|fcs| - 1];
      MappingWarningsCoverLossy(init);
      FieldLossyWarnings(fcs[|fcs| - 1]);
      CountAppend(MappingWarnings(init), FieldWarnings(fcs[|fcs| - 1]), IsLossyWarning);
    }
  }

  /** Every lossy field, skipped or not, has its "type_lossy" warning. */
  lemma {:induction false} LossyFieldsWarned(fcs: seq<FieldConversion>)
    ensures forall i :: 0 <= i < |fcs| && IsLossy(fcs[i]) ==> LossyWarning(fcs[i]) in MappingWarnings(fcs)
    decreases |fcs|
  {
    if fcs != [] {
      var init := fcs[..|fcs| - 1];
      var last := fcs[|fcs| - 1];
      LossyFieldsWarned(init);
      forall i | 0 <= i < |fcs| && IsLossy(fcs[i])
        ensures LossyWarning(fcs[i]) in MappingWarnings(fcs)
      {
        if i < |init| {
          assert fcs[i] == init[i];
        } else {
          var fw := FieldWarnings(last);
          assert fw[|fw| - 1] == LossyWarning(last);
        }
      }
    }
  }

  /** Every "type_lossy" warning is the warning of a lossy field. */
  lemma {:induction false} LossyWarningsFromFields(fcs: seq<FieldConversion>)
    ensures forall w :: w in MappingWarnings(fcs) && IsLossyWarning(w) ==>
      exists i :: 0 <= i < |fcs| && IsLossy(fcs[i]) && w == LossyWarning(fcs[i])
    decreases |fcs|
  {
    if fcs != [] {
      var init := fcs[..|fcs| - 1];
      var last := fcs[|fcs| - 1];
      LossyWarningsFromFields(init);
      assert LossyCategory[5] != TypeMappingCategory[5];
      forall w | w in MappingWarnings(fcs) && IsLossyWarning(w)
        ensures exists i :: 0 <= i < |fcs| && IsLossy(fcs[i]) && w == LossyWarning(fcs[i])
      {
        if w in MappingWarnings(init) {
          var i :| 0 <= i < |init| && IsLossy(init[i]) && w == LossyWarning(init[i]);
          assert fcs[i] == init[i];
        } else {
          var fw := FieldWarnings(last);
          assert w in fw;
          var j :| 0 <= j < |fw| && fw[j] == w;
          assert j == |fw| - 1;
          assert IsLossy(fcs[|fcs| - 1]);
        }
      }
    }
  }

  const MissingKeyWarning := ConversionWarning(SchemaCategory, "no key field found on the Azure side; an auto-generated ID is used", "")

  predicate HasPrimaryKey(fcs: seq<FieldConversion>) {
    exists i :: 0 <= i < |fcs| && fcs[i].isPrimaryKey
  }

  function SchemaDescription(indexName: string): string {
    "Migrated from Azure AI Search index: " + indexName
  }

  /** The schema fields: the target of each converted field, in order. */
  function SchemaFields(fcs: seq<FieldConversion>): seq<FieldSchema> {
    if fcs == [] then []
    else
      var fc := fcs[|fcs| - 1];
      SchemaFields(fcs[..|fcs| - 1]) + (if fc.milvusField.Some? && !fc.skipped then [fc.milvusField.value] else [])
  }

  /** One step of the loop that collects the schema fields. */
  lemma SchemaFieldsSnoc(fcs: seq<FieldConversion>, fc: FieldConversion)
    ensures SchemaFields(fcs + [fc]) == SchemaFields(fcs) + (if fc.milvusField.Some? && !fc.skipped then [fc.milvusField.value] else [])
  {
    assert (fcs + [fc])[..|fcs|] == fcs;
  }

  lemma HasPrimaryKeySnoc(fcs: seq<FieldConversion>, fc: FieldConversion)
    ensures HasPrimaryKey(fcs + [fc]) <==> HasPrimaryKey(fcs) || fc.isPrimaryKey
  {
    if HasPrimaryKey(fcs) {
      var i :| 0 <= i < |fcs| && fcs[i].isPrimaryKey;
      assert (fcs + [fc])[i] == fcs[i];
    }
    if fc.isPrimaryKey {
      assert (fcs + [fc])[|fcs|] == fc;
    }
  }

  /** When every converted field has a target, there is one schema field per converted field. */
  lemma {:induction false} SchemaFieldsCount(fcs: seq<FieldConversion>)
    requires forall i :: 0 <= i < |fcs| && !fcs[i].skipped ==> fcs[i].milvusField.Some?
    ensures |SchemaFields(fcs)| == Count(fcs, IsConverted)
    decreases |fcs|
  {
    if fcs != [] {
      SchemaFieldsCount(fcs[..|fcs| - 1]);
    }
  }

  /** Every converted field of a real conversion has a target. */
  lemma ConvertedHaveTargets(o: MigrationOptions, fields: seq<SourceField>, fcs: seq<FieldConversion>)
    requires |fcs| == |fields|
    requires forall i :: 0 <= i < |fields| ==> fcs[i] == ConvertedField(o, fields[i])
    ensures forall i :: 0 <= i < |fcs| && !fcs[i].skipped ==> fcs[i].milvusField.Some?
  {
  }

  /** The complete warning list of a conversion: unsupported features first,
      then the mapping warnings of every field, then the missing-key warning. */
  function WarningsOf(index: SourceIndex, fcs: seq<FieldConversion>): seq<ConversionWarning> {
    UnsupportedWarnings(UnsupportedFound(index, []))
      + MappingWarnings(fcs)
      + (if HasPrimaryKey(fcs) then [] else [MissingKeyWarning])
  }

  // ---------------------------------------------------------------------
  // The whole conversion
  // ---------------------------------------------------------------------

  /** Every field converted, in order. */
  function ConvertedFields(o: MigrationOptions, fields: seq<SourceField>): (fcs: seq<FieldConversion>)
    ensures |fcs| == |fields|
    ensures forall j :: 0 <= j < |fields| ==> fcs[j] == ConvertedField(o, fields[j])
  {
    seq(|fields|, j requires 0 <= j < |fields| => ConvertedField(o, fields[j]))
  }

  /** Converting one more field appends its conversion. */
  lemma ConvertedFieldsSnoc(o: MigrationOptions, fields: seq<SourceField>, i: nat)
    requires i < |fields|
    ensures ConvertedFields(o, fields[..i + 1]) == ConvertedFields(o, fields[..i]) + [ConvertedField(o, fields[i])]
  {
    var a := ConvertedFields(o, fields[..i + 1]);
    var b := ConvertedFields(o, fields[..i]);
    assert a[i] == ConvertedField(o, fields[i]);
    forall j | 0 <= j < i
      ensures a[j] == b[j]
    {
      assert fields[..i + 1][j] == fields[..i][j];
    }
  }

  /** The result of converting an index: its fields in order, the schema of
      their targets, one index conversion per vector field under the chosen
      profile, the warnings and the unsupported features. */
  function Conversion(o: MigrationOptions, index: SourceIndex): SchemaConversionResult {
    var fcs := ConvertedFields(o, index.fields);
    SchemaConversionResult(
      index.name,
      CollectionName(o, index.name),
      CollectionSchema(SchemaFields(fcs), SchemaDescription(index.name), o.enableDynamicField),
      fcs,
      IndexConversionsOf(fcs, ChosenProfile(ProfilesOfIndex(index), AlgorithmsOfIndex(index))),
      WarningsOf(index, fcs),
      UnsupportedFound(index, []))
  }

  /** What a conversion promises as a whole: one conversion per source field;
      one schema field per converted field, so the summary's converted count
      is the schema's size; one index conversion per converted vector field;
      a schema warning exactly when no field is a key; and each unsupported
      feature listed once. */
  lemma ConversionProperties(o: MigrationOptions, index: SourceIndex)
    ensures var r := Conversion(o, index);
      && |r.fieldConversions| == |index.fields|
      && (forall i :: 0 <= i < |index.fields| ==> r.fieldConversions[i].azureName == index.fields[i].name)
      && |r.collectionSchema.fields| == Summary(r).fieldsConverted
      && |r.indexConversions| == Count(r.fieldConversions, Indexed)
      && ((exists w :: w in r.warnings && w.category == SchemaCategory) <==> !HasPrimaryKey(r.fieldConversions))
      && (forall i, j :: 0 <= i < j < |r.unsupportedFeatures| ==> r.unsupportedFeatures[i] != r.unsupportedFeatures[j])
      && r.milvusCollectionName == CollectionName(o, index.name)
  {
    var r := Conversion(o, index);
    var fcs := r.fieldConversions;
    ConvertedHaveTargets(o, index.fields, fcs);
    SchemaFieldsCount(fcs);
    IndexConversionsShape(fcs, ChosenProfile(ProfilesOfIndex(index), AlgorithmsOfIndex(index)));
    MissingKeyWarned(index, fcs);
    UnsupportedOnce(index);
  }

  /** The schema warning is there exactly when no field is a primary key. */
  lemma MissingKeyWarned(index: SourceIndex, fcs: seq<FieldConversion>)
    ensures (exists w :: w in WarningsOf(index, fcs) && w.category == SchemaCategory) <==> !HasPrimaryKey(fcs)
  {
    var ws := WarningsOf(index, fcs);
    if !HasPrimaryKey(fcs) {
      assert ws[|ws| - 1] == MissingKeyWarning;
    } else {
      var us := UnsupportedWarnings(UnsupportedFound(index, []));
      assert ws == us + MappingWarnings(fcs);
      forall w | w in ws ensures w.category != SchemaCategory {
        if w in us {
          var i :| 0 <= i < |us| && us[i] == w;
        }
      }
    }
  }

  // ---------------------------------------------------------------------
  // The converter
  // ---------------------------------------------------------------------

  class SchemaConverter {
    const options: MigrationOptions

    /** `SchemaConverter(options)`; no options means the defaults. */
    constructor (options: Option<MigrationOptions>)
      ensures this.options == options.GetOr(DefaultOptions)
    {
      this.options := options.GetOr(DefaultOptions);
    }

    /** `_parse_vector_search_config`: fills the profile and algorithm dicts. */
    method ParseVectorSearchConfig(index: SourceIndex)
      returns (profiles: Dict<string, string>, algorithms: Dict<string, AlgorithmEntry>)
      ensures profiles == ProfilesOfIndex(index) && algorithms == AlgorithmsOfIndex(index)
    {
      profiles, algorithms := [], [];
      if index.vectorSearch.None? {
        return;
      }
      var vs := index.vectorSearch.value;
      var i := 0;
      while i < |vs.algorithms|
        invariant 0 <= i <= |vs.algorithms|
        invariant algorithms == AlgorithmsOf(vs.algorithms[..i])
      {
        var algo := vs.algorithms[i];
        var hnswParams: Dict<string, Value> := [];
        var metric: Option<string> := None;
        if algo.hnsw.Some? {
          var h := algo.hnsw.value;
          hnswParams := [("m", h.m), ("efConstruction", h.efConstruction), ("efSearch", h.efSearch)];
          metric := Some(h.metric);
        }
        if algo.exhaustiveKnnMetric.Some? {
          metric := algo.exhaustiveKnnMetric;
        }
        assert vs.algorithms[..i + 1][..i] == vs.algorithms[..i];
        algorithms := Set(algorithms, algo.name, AlgorithmEntry(algo.kind, hnswParams, metric));
        i := i + 1;
      }
      assert vs.algorithms[..i] == vs.algorithms;
      var j := 0;
      while j < |vs.profiles|
        invariant 0 <= j <= |vs.profiles|
        invariant profiles == ProfilesOf(vs.profiles[..j])
      {
        assert vs.profiles[..j + 1][..j] == vs.profiles[..j];
        profiles := Set(profiles, vs.profiles[j].name, vs.profiles[j].algorithm);
        j := j + 1;
      }
      assert vs.profiles[..j] == vs.profiles;
    }

    /** The profile search of `_build_index_conversions`: the first profile,
        in profile order, whose algorithm is known. */
    method ResolveProfile(profiles: Dict<string, string>, algorithms: Dict<string, AlgorithmEntry>)
      returns (profileName: string, algoKind: string, metric: string, hnswParams: Dict<string, Value>)
      ensures ProfileChoice(profileName, algoKind, metric, hnswParams) == ChosenProfile(profiles, algorithms)
    {
      profileName, algoKind, metric, hnswParams := "", "hnsw", "cosine", [];
      var k := 0;
      while k < |profiles|
        invariant 0 <= k <= |profiles|
        invariant forall l :: 0 <= l < k ==> profiles[l].1 !in Keys(algorithms)
      {
        var algoName := profiles[k].1;
        if algoName in Keys(algorithms) {
          var algo := Get(algorithms, algoName).value;
          algoKind := algo.kind;
          metric := algo.metric.GetOr("cosine");
          hnswParams := algo.hnswParams;
          profileName := profiles[k].0;
          FirstFromSkips(profiles, algorithms, k);
          return;
        }
        k := k + 1;
      }
      FirstFromSkips(profiles, algorithms, k);
    }

    /** `_build_index_conversions`: every non-skipped vector field takes the
        first profile, in profile order, whose algorithm is known. */
    method BuildIndexConversions(fcs: seq<FieldConversion>, profiles: Dict<string, string>,
                                 algorithms: Dict<string, AlgorithmEntry>)
      returns (results: seq<IndexConversion>)
      ensures results == IndexConversionsOf(fcs, ChosenProfile(profiles, algorithms))
    {
      results := [];
      for i := 0 to |fcs|
        invariant results == IndexConversionsOf(fcs[..i], ChosenProfile(profiles, algorithms))
      {
        var fc := fcs[i];
        assert fcs[..i + 1][..i] == fcs[..i];
        if fc.mapping.isVector && !fc.skipped {
          var profileName, algoKind, metric, hnswParams := ResolveProfile(profiles, algorithms);
          var milvusIdx := MapVectorIndex(algoKind, metric, if algoKind == "hnsw" then Some(hnswParams) else None);
          results := results + [IndexConversion(profileName, algoKind, metric, milvusIdx,
            if fc.milvusField.Some? then fc.milvusField.value.name else fc.azureName)];
        }
      }
      assert fcs[..|fcs|] == fcs;
    }

    /** `_check_unsupported_features`: appends to the caller's lists. */
    method CheckUnsupportedFeatures(index: SourceIndex, warnings: seq<ConversionWarning>, unsupported: seq<string>)
      returns (warnings': seq<ConversionWarning>, unsupported': seq<string>)
      ensures unsupported' == unsupported + UnsupportedFound(index, unsupported)
      ensures warnings' == warnings + UnsupportedWarnings(UnsupportedFound(index, unsupported))
    {
      var checks := AttributeChecks(index);
      warnings', unsupported' := warnings, unsupported;
      for i := 0 to 3
        invariant unsupported' == unsupported + AttributesFound(index, i)
        invariant warnings' == warnings + UnsupportedWarnings(AttributesFound(index, i))
      {
        var present, key := checks[i].0, checks[i].1;
        assert AttributesFound(index, i + 1) == AttributesFound(index, i) + (if present then [key] else []);
        if present {
          UnsupportedWarningsSnoc(AttributesFound(index, i), key);
          warnings' := warnings' + [UnsupportedWarning(key)];
          unsupported' := unsupported' + [key];
        }
      }
      ghost var first := AttributesFound(index, 3);
      if index.hasSemanticSearch {
        if SemanticKey !in unsupported' {
          UnsupportedWarningsSnoc(first, SemanticKey);
          warnings' := warnings' + [UnsupportedWarning(SemanticKey)];
          unsupported' := unsupported' + [SemanticKey];
        }
      }
    }

    /** The field loop of `convert_from_index`: converts each field in order,
        collects the targets of the converted ones and remembers the last
        primary key. */
    method ConvertFields(fields: seq<SourceField>)
      returns (fcs: seq<FieldConversion>, milvusFields: seq<FieldSchema>, primaryKeyField: Option<string>)
      ensures fcs == ConvertedFields(options, fields)
      ensures milvusFields == SchemaFields(fcs)
      ensures primaryKeyField.None? <==> !HasPrimaryKey(fcs)
    {
      fcs, milvusFields, primaryKeyField := [], [], None;
      for i := 0 to |fields|
        invariant fcs == ConvertedFields(options, fields[..i])
        invariant milvusFields == SchemaFields(fcs)
        invariant primaryKeyField.None? <==> !HasPrimaryKey(fcs)
      {
        var fc := ConvertedField(options, fields[i]);
        SchemaFieldsSnoc(fcs, fc);
        HasPrimaryKeySnoc(fcs, fc);
        ConvertedFieldsSnoc(options, fields, i);
        fcs := fcs + [fc];
        if fc.milvusField.Some? && !fc.skipped {
          milvusFields := milvusFields + [fc.milvusField.value];
        }
        if fc.isPrimaryKey {
          primaryKeyField := if fc.milvusField.Some? then Some(fc.milvusField.value.name) else None;
        }
      }
      assert fields[..|fields|] == fields;
    }

    /** The warning loop of `convert_from_index`: each field's mapping
        warnings, then its lossy warning, appended in field order. */
    method AppendMappingWarnings(fcs: seq<FieldConversion>, warnings: seq<ConversionWarning>)
      returns (warnings': seq<ConversionWarning>)
      ensures warnings' == warnings + MappingWarnings(fcs)
    {
      warnings' := warnings;
      for i := 0 to |fcs|
        invariant warnings' == warnings + MappingWarnings(fcs[..i])
      {
        var fc := fcs[i];
        ghost var before := warnings';
        for k := 0 to |fc.mapping.warnings|
          invariant warnings' == before + TypeWarnings(fc, k)
        {
          var w := ConversionWarning(TypeMappingCategory, fc.mapping.warnings[k], fc.azureName);
          TypeWarningsSnoc(fc, k);
          AppendAssoc(before, TypeWarnings(fc, k), [w]);
          warnings' := warnings' + [w];
        }
        if fc.mapping.confidence == Lossy {
          AppendAssoc(before, TypeWarnings(fc, |fc.mapping.warnings|), [LossyWarning(fc)]);
          warnings' := warnings' + [LossyWarning(fc)];
        }
        MappingWarningsStep(fcs, i);
        AppendAssoc(warnings, MappingWarnings(fcs[..i]), FieldWarnings(fc));
      }
      assert fcs[..|fcs|] == fcs;
    }

    /** The warnings of `convert_from_index`, in the order it raises them:
        unsupported features, then the fields' mapping warnings, then the
        missing primary key. */
    method CollectWarnings(index: SourceIndex, fcs: seq<FieldConversion>, missingKey: bool)
      returns (warnings: seq<ConversionWarning>, unsupported: seq<string>)
      ensures unsupported == UnsupportedFound(index, [])
      ensures warnings == UnsupportedWarnings(unsupported) + MappingWarnings(fcs)
        + (if missingKey then [MissingKeyWarning] else [])
    {
      warnings, unsupported := CheckUnsupportedFeatures(index, [], []);
      ghost var us := UnsupportedFound(index, []);
      assert unsupported == us && warnings == UnsupportedWarnings(us) by {
        assert [] + us == us;
        assert [] + UnsupportedWarnings(us) == UnsupportedWarnings(us);
      }
      warnings := AppendMappingWarnings(fcs, warnings);
      if missingKey {
        warnings := warnings + [MissingKeyWarning];
      }
    }

    /** `convert_from_index`: converts the fields in order, collects the
        schema fields and the primary key, then derives the index conversions
        and the warnings. */
    method ConvertFromIndex(index: SourceIndex) returns (r: SchemaConversionResult)
      ensures r == Conversion(options, index)
    {
      var collectionName := CollectionName(options, index.name);
      var profiles, algorithms := ParseVectorSearchConfig(index);
      var fcs, milvusFields, primaryKeyField := ConvertFields(index.fields);
      var indexConversions := BuildIndexConversions(fcs, profiles, algorithms);
      var warnings, unsupported := CollectWarnings(index, fcs, primaryKeyField.None?);
      assert warnings == WarningsOf(index, fcs);
      var schema := CollectionSchema(milvusFields, SchemaDescription(index.name), options.enableDynamicField);
      r := SchemaConversionResult(index.name, collectionName, schema, fcs, indexConversions, warnings, unsupported);
    }

    /** `convert_from_json`: reads the exported index through the adapters and
        converts it like an SDK index; an export the adapters reject fails. */
    method ConvertFromJson(py: Builtins, json: Value) returns (r: Result<SchemaConversionResult, string>)
      ensures r.Ok? <==> JsonAdapter.IndexFromJson(py, json).Ok?
      ensures r.Ok? ==> r.value == Conversion(options, JsonAdapter.IndexFromJson(py, json).value)
      ensures r.Err? ==> r.error == JsonAdapter.IndexFromJson(py, json).error
    {
      var index := JsonAdapter.IndexFromJson(py, json);
      if index.Err? {
        return Err(index.error);
      }
      var result := ConvertFromIndex(index.value);
      return Ok(result);
    }
  }

  /** Converting an index's REST export gives the same result as converting
      the index itself. */
  lemma ExportConvertsAlike(py: Builtins, o: MigrationOptions, x: SourceIndex)
    requires x.hasSemanticSettings == x.hasSemanticSearch
    ensures JsonAdapter.IndexFromJson(py, JsonAdapter.IndexToJson(x)).Ok?
    ensures Conversion(o, JsonAdapter.IndexFromJson(py, JsonAdapter.IndexToJson(x)).value) == Conversion(o, x)
  {
    JsonAdapter.IndexRoundTrip(py, x);
  }

  /** No profile between `from` and `k` resolves, so the search from `from`
      lands where the search from `k` does. */
  lemma {:induction false} FirstFromSkips(ps: Dict<string, string>, algos: Dict<string, AlgorithmEntry>, k: nat)
    requires k <= |ps|
    requires forall l :: 0 <= l < k ==> ps[l].1 !in Keys(algos)
    ensures FirstResolvableFrom(ps, algos, 0) == FirstResolvableFrom(ps, algos, k)
  {
    var j := k;
    while j > 0
      invariant 0 <= j <= k
      invariant FirstResolvableFrom(ps, algos, j) == FirstResolvableFrom(ps, algos, k)
    {
      j := j - 1;
    }
  }
}

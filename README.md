# az-ai-search-to-milvus, modelled in Dafny

This project models the core of `az-ai-search-to-milvus`, a tool that moves an
Azure AI Search index to a Milvus (or Zilliz Cloud) collection. The modelled
parts are:

- **Type resolution.** The Edm-type tables and `resolve_type`.
- **Vector index mapping.** `map_vector_index`, the metric table and the catalogue of Milvus-only index types.
- **The schema converter.**
  - Field conversion: exclusion, renaming, primary-key and parameter rules.
  - The vector profile search, the unsupported-feature check and the warning list.
  - The adapters that read a REST-export JSON object as an SDK index.
- **The data transformer.** The field map, per-type value coercion, documents and batches.
- **`DataMigrator.migrate`.** Resume from a checkpoint, collection setup, the batch loop, failure handling and finalisation.
- **The checkpoint record and its file store.**
- **The pre-migration assessment report.**
- **Post-migration validation.**
- **The configuration classes.** Environment resolution and secret masking.

One Dafny module corresponds to each source file:

| module | file |
|---|---|
| `TypeMappings` | `type_mapping.py` |
| `IndexMappings` | `index_mapping.py` |
| `SchemaModel` | the result types of `schema_converter.py` |
| `SchemaConversion` | `schema_converter.py` |
| `JsonAdapter` | the `_Json*Adapter` classes |
| `DataTransformation` | `DataTransformer` |
| `Migration` | `DataMigrator` |
| `Checkpoints` | `utils/checkpoint.py` |
| `Assessment` | `assessment.py` |
| `Validation` | `validation.py` |
| `Config` | `config.py` |

`Wrappers`, `PyDict`, `Values` and `Counting` are shared helpers:

- `Wrappers` holds Option and Result.
- `PyDict` is an insertion-ordered dict with Python's overwrite-in-place semantics.
- `Values` models dynamically typed values, truthiness, and `str`/`int`/`float` text.
- `Counting` counts the elements of a sequence that satisfy a predicate.

Pure code is modelled as functions and lemmas. Code that changes state is modelled as classes and methods:

- `MigrationCheckpoint`, `CheckpointManager`, `DataTransformer`, `SchemaConverter`, `DataMigrator`, `MigrationValidator` and the configuration classes.
- The loops of `generate_assessment`, `_identify_advantages` and `_check_sample_data`.

Each of these methods is proved equal to a specification function, and the promised properties are proved about that function.

External services are modelled as follows:

- The Azure source is a `DocumentSource`: a document count, or the exception that fetching it raises, plus the list of extracted batches.
- The Milvus client is a `MilvusSink`. It logs every call, and a fault plan says which numbered call raises.
- In validation, the services are function values that return `Ok` or the exception as `Err`.
- The clock is a parameter.
- Python's text built-ins are opaque function values in `Values.Builtins`:
  - `int(str)` and `float(str)`;
  - `str()` of a float or container;
  - `json.loads`;
  - `struct.pack("<e")`.

## Model

| member | source | states |
|---|---|---|
| TypeMappings.DataTypeName | src/az_search_to_milvus/assessment.py:83 | every Milvus data type has a non-empty `name` |
| TypeMappings.UnknownMapping | src/az_search_to_milvus/type_mapping.py:276-283 | an unknown Edm type becomes an UNSUPPORTED, non-vector JSON mapping of that same type, with one warning |
| TypeMappings.VectorEntries | src/az_search_to_milvus/type_mapping.py:156-200 | every vector entry is keyed by its own Edm type, is a vector, and targets FLOAT_VECTOR, FLOAT16_VECTOR or BINARY_VECTOR |
| TypeMappings.CollectionEntries | src/az_search_to_milvus/type_mapping.py:124-150 | every collection entry is keyed by its own type, is not a vector, and is an ARRAY with an element type |
| TypeMappings.ScalarEntries | src/az_search_to_milvus/type_mapping.py:46-118 | every scalar entry is keyed by its own type, is not a vector, and has no element type |
| TypeMappings.TablePrefixes | src/az_search_to_milvus/type_mapping.py:46-200 | scalar keys start with "Edm." and the others with "Collection(" |
| TypeMappings.ScalarKeysUnique | src/az_search_to_milvus/type_mapping.py:46-118 | no scalar key appears twice |
| TypeMappings.CollectionVectorKeysUnique | src/az_search_to_milvus/type_mapping.py:124-200 | the collection and vector tables have unique keys and share none |
| TypeMappings.TablesDisjoint | src/az_search_to_milvus/type_mapping.py:46-200 | no Edm type is filed in two tables |
| TypeMappings.ResolveType | src/az_search_to_milvus/type_mapping.py:243-283 | the result carries the asked type; it is a vector iff the type is in the vector table; it has an element type iff it is in the collection table, iff it is an ARRAY; it is UNSUPPORTED iff the type is unknown, and then it is the JSON fallback |
| TypeMappings.GetAllMappings | src/az_search_to_milvus/type_mapping.py:286-292 | the scalar, collection and vector tables' values, in that order: 21 mappings, each with an Edm type |
| TypeMappings.ResolveIgnoresVectorFlag | src/az_search_to_milvus/type_mapping.py:259-266 | `is_vector_field` never changes the result |
| TypeMappings.ResolveVectorEntry | src/az_search_to_milvus/type_mapping.py:260-266 | each vector key resolves to its own entry |
| TypeMappings.ResolveCollectionEntry | src/az_search_to_milvus/type_mapping.py:268-270 | each collection key resolves to its own entry |
| TypeMappings.ResolveScalarEntry | src/az_search_to_milvus/type_mapping.py:272-274 | each scalar key resolves to its own entry |
| TypeMappings.ResolveByteTypes | src/az_search_to_milvus/type_mapping.py:102-117 | Edm.Byte widens losslessly to INT16, and Edm.SByte maps exactly to INT8 |
| TypeMappings.ResolveDateTimeOffset | src/az_search_to_milvus/type_mapping.py:80-87 | Edm.DateTimeOffset becomes a semantic VARCHAR(64) |
| TypeMappings.ResolveVectorExamples | src/az_search_to_milvus/type_mapping.py:156-200 | Collection(Edm.Byte) is an exact BINARY_VECTOR, and Collection(Edm.Single) a FLOAT_VECTOR |
| TypeMappings.LossyMappings | src/az_search_to_milvus/type_mapping.py:171-192 | the only LOSSY mappings are Collection(Edm.Int16) and Collection(Edm.SByte), and each has two warnings |
| IndexMappings.GetOr | src/az_search_to_milvus/index_mapping.py:71-75 | `params.get(k, default)`: the stored value when the key is present, the default otherwise |
| IndexMappings.MetricType | src/az_search_to_milvus/index_mapping.py:22-63 | cosine→COSINE, euclidean→L2, dotProduct→IP, hamming→HAMMING; anything else→COSINE |
| IndexMappings.MapVectorIndex | src/az_search_to_milvus/index_mapping.py:42-96 | hnsw gives HNSW with M, efConstruction and ef taken from the parameters (defaults 4/400/500); exhaustiveKnn gives FLAT with no parameters; any other kind gives HNSW with 16/256/256 and a note naming the kind; the metric is always mapped |
| IndexMappings.HnswDefaults | src/az_search_to_milvus/index_mapping.py:65-78 | no HNSW parameters behaves as an empty dict, and both give Azure's defaults |
| IndexMappings.ExclusiveIndexNames | src/az_search_to_milvus/index_mapping.py:114-185 | eleven Milvus-only index types with distinct names |
| IndexMappings.ExclusiveGpuIndexes | src/az_search_to_milvus/index_mapping.py:145-172 | exactly the sixth to ninth entries require a GPU |
| IndexMappings.GpuIndexesByName | src/az_search_to_milvus/index_mapping.py:114-185 | an entry requires a GPU iff its name starts with "GPU_" |
| SchemaModel.Summary | src/az_search_to_milvus/schema_converter.py:79-90 | skipped, converted and vector fields are the numbers of field conversions that are skipped, not skipped, and vector mappings; converted plus skipped equals the total; no field is skipped iff every field was converted; the index and warning counts and the names are those of the result |
| Config.OrEnv | src/az_search_to_milvus/config.py:28-30 | `value or os.environ.get(name, default)`: a non-empty value wins, then the variable, then the default |
| Config.OrEnvIdempotent | src/az_search_to_milvus/config.py:26-30 | resolving twice has the same effect as resolving once |
| Config.AzureSearchConfig.constructor | src/az_search_to_milvus/config.py:16-24 | the fields are those given |
| Config.AzureSearchConfig.Default | src/az_search_to_milvus/config.py:20-24 | the dataclass defaults, API version "2024-07-01" |
| Config.AzureSearchConfig.Resolve | src/az_search_to_milvus/config.py:26-30 | endpoint, API key and index name are resolved from their variables; the other fields are unchanged |
| Config.MilvusConfig.constructor | src/az_search_to_milvus/config.py:33-44 | the fields are those given |
| Config.MilvusConfig.Default | src/az_search_to_milvus/config.py:37-44 | the dataclass defaults, URI "http://localhost:19530" and database "default" |
| Config.MilvusConfig.Resolve | src/az_search_to_milvus/config.py:46-51 | URI, token, Zilliz key and Zilliz endpoint are resolved; database, collection and Zilliz flag are unchanged |
| Config.MilvusConfig.EffectiveUri | src/az_search_to_milvus/config.py:53-57 | the Zilliz endpoint iff Zilliz is on and the endpoint is set; otherwise the URI |
| Config.MilvusConfig.EffectiveToken | src/az_search_to_milvus/config.py:59-63 | the Zilliz key iff Zilliz is on and the key is set; otherwise the token |
| Config.MaskSecret | src/az_search_to_milvus/config.py:153-158 | one `if d[s][k]: d[s][k] = "***"` step |
| Config.MaskedString | src/az_search_to_milvus/config.py:153-154 | a string secret reads "***" when non-empty and stays empty otherwise |
| Config.MaskSecretSpec | src/az_search_to_milvus/config.py:153-158 | a masking step replaces only a truthy secret and leaves every other entry alone |
| Config.MaskSecretsAt | src/az_search_to_milvus/config.py:147-159 | the three masking steps mask each secret and leave every other entry alone |
| Config.MaskSecretStrings | src/az_search_to_milvus/config.py:147-159 | with string secrets, each non-empty secret reads "***" and an empty one stays "" |
| Config.MigrationConfig.constructor | src/az_search_to_milvus/config.py:86-92 | the three sections are those given |
| Config.MigrationConfig.Resolve | src/az_search_to_milvus/config.py:94-96 | both connection sections are resolved, exactly as their own `resolve` does |
| Config.MigrationConfig.AsDictSecrets | src/az_search_to_milvus/config.py:151 | `asdict` has the three sections, in order, and holds the three secrets in the clear |
| Config.MigrationConfig.ToDict | src/az_search_to_milvus/config.py:147-159 | the three sections, with each non-empty secret masked as "***" and each empty one left "" |
| Config.MigrationConfig.ToDictKeepsOthers | src/az_search_to_milvus/config.py:147-159 | every entry other than the three secrets is exactly as `asdict` gave it |
| JsonAdapter.TextOf | src/az_search_to_milvus/schema_converter.py:205-206 | a text attribute is read iff it is a string |
| JsonAdapter.ItemsOf | src/az_search_to_milvus/schema_converter.py:486-487 | `d.get(key, [])`: an absent key is an empty list, and a non-list is rejected |
| JsonAdapter.FieldFromJson | src/az_search_to_milvus/schema_converter.py:427-451 | a field object reads through the key map; `key` and `fields` count by truthiness; a null profile or dimension is absent |
| JsonAdapter.MetricFromJson | src/az_search_to_milvus/schema_converter.py:465 | `get("metric", "cosine")` |
| JsonAdapter.AlgorithmFromJson | src/az_search_to_milvus/schema_converter.py:454-475 | name, kind (default "hnsw"), HNSW parameters with defaults 4/400/500/cosine when the object is non-empty, and the exhaustive-KNN metric |
| JsonAdapter.ProfileFromJson | src/az_search_to_milvus/schema_converter.py:478-481 | the algorithm is `algorithm`, else `algorithmConfigurationName`, else "" |
| JsonAdapter.VectorSearchFromJson | src/az_search_to_milvus/schema_converter.py:484-487 | algorithms and profiles are read item by item, in order |
| JsonAdapter.IndexFromJson | src/az_search_to_milvus/schema_converter.py:490-504 | name defaults to "unknown"; vector search only when truthy; `semantic` sets both semantic flags |
| JsonAdapter.EmptyExport | src/az_search_to_milvus/schema_converter.py:490-504 | `{}` reads as an empty index named "unknown" |
| JsonAdapter.FieldRoundTrip | src/az_search_to_milvus/schema_converter.py:427-451 | a field written in the REST shape reads back as itself |
| JsonAdapter.AlgorithmRoundTrip | src/az_search_to_milvus/schema_converter.py:454-475 | an algorithm written in the REST shape reads back as itself |
| JsonAdapter.ProfileRoundTrip | src/az_search_to_milvus/schema_converter.py:478-481 | a profile reads back as itself |
| JsonAdapter.VectorSearchRoundTrip | src/az_search_to_milvus/schema_converter.py:484-487 | vector search settings read back as themselves |
| JsonAdapter.IndexFromParts | src/az_search_to_milvus/schema_converter.py:490-504 | an object whose attributes read back as an index's parts reads as that index |
| JsonAdapter.IndexFromObject | src/az_search_to_milvus/schema_converter.py:490-504 | an index object built from round-tripping parts reads back as the index |
| JsonAdapter.IndexRoundTrip | src/az_search_to_milvus/schema_converter.py:490-504 | every index written as a REST export reads back as itself |
| SchemaConversion.ReplaceHyphens | src/az_search_to_milvus/schema_converter.py:115 | same length; each '-' becomes '_' and every other character is kept |
| SchemaConversion.CollectionName | src/az_search_to_milvus/schema_converter.py:113-115 | the `__collection_name__` override's `milvus_name` when given, else the index name with hyphens replaced |
| SchemaConversion.DeclaredType | src/az_search_to_milvus/schema_converter.py:243-247 | a key whose mapped type is neither INT64 nor VARCHAR is declared VARCHAR; otherwise the mapped type |
| SchemaConversion.ConvertedField | src/az_search_to_milvus/schema_converter.py:199-293 | the conversion keeps the source name; it is skipped iff the field is excluded, and then it has no target |
| SchemaConversion.ConvertedFieldShape | src/az_search_to_milvus/schema_converter.py:205-293 | a skipped field keeps its declared type and is not a key; a converted one gets a target named by the override, `renamed_to` set iff renamed, and a mapping the vector hint does not affect |
| SchemaConversion.FieldParameters | src/az_search_to_milvus/schema_converter.py:237-283 | `max_length`, `dim`, element type, capacity and partition-key rules of a converted field |
| SchemaConversion.Int32KeyBecomesVarchar | src/az_search_to_milvus/schema_converter.py:243-254 | an Edm.Int32 key becomes a VARCHAR primary key of the global maximum length, whatever its override says |
| SchemaConversion.DateTimeOffsetLength | src/az_search_to_milvus/schema_converter.py:250-254 | a non-key Edm.DateTimeOffset field is VARCHAR(64) unless overridden |
| SchemaConversion.SubFieldsBecomeJson | src/az_search_to_milvus/schema_converter.py:222-225 | a field with sub-fields is converted as Edm.ComplexType into JSON |
| SchemaConversion.DefaultOptionsKeepNames | src/az_search_to_milvus/schema_converter.py:232-234 | under the default options every field is converted under its own name |
| SchemaConversion.EntryOf | src/az_search_to_milvus/schema_converter.py:306-326 | the algorithm entry holds the kind, the HNSW parameters when present, and the metric, with the exhaustive-KNN metric winning |
| SchemaConversion.AlgorithmsKnown | src/az_search_to_milvus/schema_converter.py:306-326 | a name is a key of the algorithms dict iff some algorithm carries it |
| SchemaConversion.AlgorithmsLastWins | src/az_search_to_milvus/schema_converter.py:326 | the entry under a name is that of the last algorithm with that name |
| SchemaConversion.ProfilesUnique | src/az_search_to_milvus/schema_converter.py:328-331 | the profiles dict has unique keys |
| SchemaConversion.FirstResolvableFrom | src/az_search_to_milvus/schema_converter.py:359-370 | the first profile, at or after a position, whose algorithm is known; None iff there is none |
| SchemaConversion.ChosenProfile | src/az_search_to_milvus/schema_converter.py:350-370 | no resolvable profile gives "" / hnsw / cosine / no parameters; otherwise the first resolvable profile's kind, metric and non-metric parameters |
| SchemaConversion.IndexConversionsShape | src/az_search_to_milvus/schema_converter.py:335-388 | one index conversion per non-skipped vector field, all under the same profile, each aimed at such a field |
| SchemaConversion.UnsupportedWarning | src/az_search_to_milvus/schema_converter.py:405-407 | an "unsupported_feature" warning carrying the feature's advice, and no field name |
| SchemaConversion.AttributeChecks | src/az_search_to_milvus/schema_converter.py:397-401 | the three attributes, in order, with their feature keys |
| SchemaConversion.UnsupportedWarnings | src/az_search_to_milvus/schema_converter.py:402-409 | one warning per reported feature, in order |
| SchemaConversion.UnsupportedWarningsSnoc | src/az_search_to_milvus/schema_converter.py:406-409 | reporting one more feature appends one warning |
| SchemaConversion.AttributesFoundInOrder | src/az_search_to_milvus/schema_converter.py:402-409 | the three attributes contribute their keys in order |
| SchemaConversion.UnsupportedOnce | src/az_search_to_milvus/schema_converter.py:390-419 | each feature is reported at most once, and exactly when its attribute is truthy; semanticConfiguration is reported when either semantic attribute is |
| SchemaConversion.FieldWarnings | src/az_search_to_milvus/schema_converter.py:144-160 | the field's mapping warnings come first, in order, as "type_mapping" warnings naming the field; a LOSSY mapping adds one more, last, the field's "type_lossy" warning; nothing else |
| SchemaConversion.TypeWarnings | src/az_search_to_milvus/schema_converter.py:145-152 | the first k mapping warnings as "type_mapping" warnings naming the field |
| SchemaConversion.MappingWarnings | src/az_search_to_milvus/schema_converter.py:144-160 | the field warnings of all fields, in field order |
| SchemaConversion.MappingWarningsStep | src/az_search_to_milvus/schema_converter.py:144-160 | one more field appends its field warnings |
| SchemaConversion.TypeWarningsSnoc | src/az_search_to_milvus/schema_converter.py:145-152 | one more mapping warning appends one warning |
| SchemaConversion.FieldLossyWarnings | src/az_search_to_milvus/schema_converter.py:153-160 | one field contributes one "type_lossy" warning if its mapping is LOSSY and none otherwise |
| SchemaConversion.MappingWarningsCoverLossy | src/az_search_to_milvus/schema_converter.py:153-160 | there are exactly as many "type_lossy" warnings as LOSSY fields, skipped or not |
| SchemaConversion.LossyFieldsWarned | src/az_search_to_milvus/schema_converter.py:144-160 | every LOSSY field, skipped or not, has its "type_lossy" warning, naming it, among the mapping warnings |
| SchemaConversion.LossyWarningsFromFields | src/az_search_to_milvus/schema_converter.py:144-160 | every "type_lossy" warning among the mapping warnings is the warning of a LOSSY field |
| SchemaConversion.SchemaFieldsSnoc | src/az_search_to_milvus/schema_converter.py:128-129 | one more field appends its target iff it has one and is not skipped |
| SchemaConversion.HasPrimaryKeySnoc | src/az_search_to_milvus/schema_converter.py:130-131 | a key is found among the fields iff it is found before the last one or the last one is a key |
| SchemaConversion.SchemaFieldsCount | src/az_search_to_milvus/schema_converter.py:125-129 | when converted fields have targets, the schema has one field per converted field |
| SchemaConversion.ConvertedHaveTargets | src/az_search_to_milvus/schema_converter.py:284-293 | every converted field of a real conversion has a target |
| SchemaConversion.ConvertedFields | src/az_search_to_milvus/schema_converter.py:125-127 | one conversion per source field, in order |
| SchemaConversion.ConvertedFieldsSnoc | src/az_search_to_milvus/schema_converter.py:125-127 | converting one more field appends its conversion |
| SchemaConversion.ConversionProperties | src/az_search_to_milvus/schema_converter.py:104-185 | one conversion per source field, same names; the schema size is the summary's converted count; one index conversion per converted vector field; the key warning iff no key; each unsupported feature once |
| SchemaConversion.MissingKeyWarned | src/az_search_to_milvus/schema_converter.py:162-169 | a "schema" warning is present iff no field is a primary key |
| SchemaConversion.SchemaConverter.constructor | src/az_search_to_milvus/schema_converter.py:101-102 | no options means `MigrationOptions()` |
| SchemaConversion.SchemaConverter.ParseVectorSearchConfig | src/az_search_to_milvus/schema_converter.py:295-333 | the loops build the profiles and algorithms dicts of the specification, or empty dicts without vector search |
| SchemaConversion.SchemaConverter.ResolveProfile | src/az_search_to_milvus/schema_converter.py:358-370 | the loop with `break` finds the chosen profile |
| SchemaConversion.SchemaConverter.BuildIndexConversions | src/az_search_to_milvus/schema_converter.py:335-388 | the loop yields exactly the index conversions of the specification |
| SchemaConversion.SchemaConverter.CheckUnsupportedFeatures | src/az_search_to_milvus/schema_converter.py:390-419 | appends the unsupported warnings and keys to the caller's lists |
| SchemaConversion.SchemaConverter.ConvertFields | src/az_search_to_milvus/schema_converter.py:121-131 | the loop builds the conversions, the schema fields and the key flag |
| SchemaConversion.SchemaConverter.AppendMappingWarnings | src/az_search_to_milvus/schema_converter.py:143-160 | appends the mapping warnings of every field, in order |
| SchemaConversion.SchemaConverter.CollectWarnings | src/az_search_to_milvus/schema_converter.py:139-169 | unsupported warnings, then mapping warnings, then the key warning when no key |
| SchemaConversion.SchemaConverter.ConvertFromIndex | src/az_search_to_milvus/schema_converter.py:104-185 | returns exactly `Conversion(options, index)` |
| SchemaConversion.SchemaConverter.ConvertFromJson | src/az_search_to_milvus/schema_converter.py:187-193 | an accepted export converts like the index it reads as; a rejected one fails |
| SchemaConversion.ExportConvertsAlike | src/az_search_to_milvus/schema_converter.py:187-193 | converting an index's REST export gives the same result as converting the index |
| SchemaConversion.FirstFromSkips | src/az_search_to_milvus/schema_converter.py:359-370 | skipping unresolvable profiles does not change the search result |
| Checkpoints.StatusText | src/az_search_to_milvus/utils/checkpoint.py:25 | one of "pending", "in_progress", "completed", "failed" |
| Checkpoints.StatusTextInjective | src/az_search_to_milvus/utils/checkpoint.py:25 | different statuses have different texts |
| Checkpoints.NewRecord | src/az_search_to_milvus/utils/checkpoint.py:16-29 | a new checkpoint: pending, nothing migrated, no key, batch 0, no error |
| Checkpoints.Stamped | src/az_search_to_milvus/utils/checkpoint.py:31-33 | a zero creation time is replaced by the clock; everything else is kept |
| Checkpoints.Advanced | src/az_search_to_milvus/utils/checkpoint.py:39-43 | adds the count, sets the key, bumps the batch number and the update time; status, total and identity are kept |
| Checkpoints.Marked | src/az_search_to_milvus/utils/checkpoint.py:35-47 | only status and update time change |
| Checkpoints.MarkedFailed | src/az_search_to_milvus/utils/checkpoint.py:49-52 | status failed, the error message set, update time set; the rest kept |
| Checkpoints.AdvanceTwice | src/az_search_to_milvus/utils/checkpoint.py:39-43 | two advances add their counts and batch numbers and keep the status |
| Checkpoints.ProgressOf | src/az_search_to_milvus/utils/checkpoint.py:54-58 | 0 when the total is 0, else migrated/total·100 |
| Checkpoints.ProgressBounds | src/az_search_to_milvus/utils/checkpoint.py:54-58 | within 0..100 while 0 ≤ migrated ≤ total |
| Checkpoints.MigrationCheckpoint.constructor | src/az_search_to_milvus/utils/checkpoint.py:31-33 | the fields are the stamped record |
| Checkpoints.MigrationCheckpoint.MarkInProgress | src/az_search_to_milvus/utils/checkpoint.py:35-37 | the new state is `Marked(old, InProgress, now)` |
| Checkpoints.MigrationCheckpoint.Advance | src/az_search_to_milvus/utils/checkpoint.py:39-43 | the new state is `Advanced(old, …)` |
| Checkpoints.MigrationCheckpoint.MarkCompleted | src/az_search_to_milvus/utils/checkpoint.py:45-47 | the new state is `Marked(old, Completed, now)` |
| Checkpoints.MigrationCheckpoint.MarkFailed | src/az_search_to_milvus/utils/checkpoint.py:49-52 | the new state is `MarkedFailed(old, error, now)` |
| Checkpoints.MigrationCheckpoint.ProgressPct | src/az_search_to_milvus/utils/checkpoint.py:54-58 | the progress of the current fields |
| Checkpoints.Sanitize | src/az_search_to_milvus/utils/checkpoint.py:69 | same length; '/' and '\\' become '_', other characters kept |
| Checkpoints.FileNameCollision | src/az_search_to_milvus/utils/checkpoint.py:68-70 | two index names share a file iff they sanitize alike |
| Checkpoints.SanitizeIdempotent | src/az_search_to_milvus/utils/checkpoint.py:69 | sanitizing twice is sanitizing once |
| Checkpoints.Loaded | src/az_search_to_milvus/utils/checkpoint.py:77-82 | a record iff the file exists, and then the stored record, stamped |
| Checkpoints.Deleted | src/az_search_to_milvus/utils/checkpoint.py:84-87 | deleting an absent file changes nothing |
| Checkpoints.LoadAfterSave | src/az_search_to_milvus/utils/checkpoint.py:72-82 | load after save returns the saved record, once its creation time is stamped |
| Checkpoints.SaveOverwrites | src/az_search_to_milvus/utils/checkpoint.py:72-75 | the last save to a file wins |
| Checkpoints.SaveIsolated | src/az_search_to_milvus/utils/checkpoint.py:72-82 | saving one index leaves unchanged the load of any index whose sanitized name differs |
| Checkpoints.LoadAfterDelete | src/az_search_to_milvus/utils/checkpoint.py:77-87 | after delete, load returns None |
| Checkpoints.CheckpointManager.constructor | src/az_search_to_milvus/utils/checkpoint.py:64-66 | the directory and its existing files |
| Checkpoints.CheckpointManager.Save | src/az_search_to_milvus/utils/checkpoint.py:72-75 | the file of the index is overwritten with the fields; returns the file's path inside the checkpoint directory |
| Checkpoints.CheckpointManager.Load | src/az_search_to_milvus/utils/checkpoint.py:77-82 | null iff nothing stored; else a fresh checkpoint with the stored record |
| Checkpoints.CheckpointManager.Delete | src/az_search_to_milvus/utils/checkpoint.py:84-87 | the store after delete |
| DataTransformation.FieldMapShape | src/az_search_to_milvus/data_migrator.py:37-39 | the field map holds kept conversions under their own source names, and its keys are exactly the kept source names |
| DataTransformation.FieldMapLastWins | src/az_search_to_milvus/data_migrator.py:37-39 | the entry under a name is the last kept conversion with that name |
| DataTransformation.KeyFieldShape | src/az_search_to_milvus/data_migrator.py:40-41 | a key field exists iff some kept conversion is a primary key |
| DataTransformation.KeyFieldIsLast | src/az_search_to_milvus/data_migrator.py:40-41 | the key field is the last kept primary key's name |
| DataTransformation.DefaultValue | src/az_search_to_milvus/data_migrator.py:174-188 | "" / 0 / 0.0 / False / {} / [] by type; none for the three vector types |
| DataTransformation.PrefixSlice | src/az_search_to_milvus/data_migrator.py:89 | Python's `s[:n]`, negative n counted from the end |
| DataTransformation.ByteOf | src/az_search_to_milvus/data_migrator.py:169 | `bytes(list)` accepts an int (or bool) in 0..255 and rejects the rest |
| DataTransformation.Concat | src/az_search_to_milvus/data_migrator.py:157-161 | two bytes per element, in order |
| DataTransformation.TextCoercion | src/az_search_to_milvus/data_migrator.py:86-90 | text is cut to `max_length` (65535 without one); other values become `str()` |
| DataTransformation.IntegerCoercion | src/az_search_to_milvus/data_migrator.py:92-102 | ints pass, bools give 0/1, floats truncate, containers fail |
| DataTransformation.RealCoercion | src/az_search_to_milvus/data_migrator.py:104-108 | ints widen, floats pass, containers fail |
| DataTransformation.JsonCoercion | src/az_search_to_milvus/data_migrator.py:113-116 | containers pass, text is parsed, anything else becomes `{"value": v}` |
| DataTransformation.ArrayCoercion | src/az_search_to_milvus/data_migrator.py:118-128 | lists are coerced element-wise by element type; a scalar becomes `[v]` |
| DataTransformation.FloatVectorCoercion | src/az_search_to_milvus/data_migrator.py:141-148 | a list keeps its length with float elements; bytes become floats |
| DataTransformation.HalfVectorCoercion | src/az_search_to_milvus/data_migrator.py:150-164 | a list packs to two bytes per element; other values pass |
| DataTransformation.BinaryVectorCoercion | src/az_search_to_milvus/data_migrator.py:166-172 | a list of 0..255 becomes those bytes; an out-of-range element fails |
| DataTransformation.TransformStops | src/az_search_to_milvus/data_migrator.py:55-73 | once dropped or failed, later fields change nothing |
| DataTransformation.ErrorsComeFromFields | src/az_search_to_milvus/data_migrator.py:55-73 | an error is some field's coercion error |
| DataTransformation.MissingKeyDropsDocument | src/az_search_to_milvus/data_migrator.py:60-64 | a missing primary key drops the document, unless an earlier field already failed |
| DataTransformation.HappyPath | src/az_search_to_milvus/data_migrator.py:55-73 | a built row is the happy-path row; every field coerced and added iff it contributes |
| DataTransformation.RowUpToColumns | src/az_search_to_milvus/data_migrator.py:55-71 | the columns of the partial row are the target names of the contributing fields so far |
| DataTransformation.RowUpToValue | src/az_search_to_milvus/data_migrator.py:55-71 | a partial row holds each contributing field's value under its target name |
| DataTransformation.RowColumns | src/az_search_to_milvus/data_migrator.py:47-73 | the row's columns are exactly the target names of contributing fields |
| DataTransformation.RowValue | src/az_search_to_milvus/data_migrator.py:47-73 | a field's column holds its contribution when no other field shares the name |
| DataTransformation.BatchSucceeds | src/az_search_to_milvus/data_migrator.py:75-82 | a batch succeeds iff every document transforms without error |
| DataTransformation.BatchShape | src/az_search_to_milvus/data_migrator.py:75-82 | one row per kept document, each from a batch document, and every kept document's row is present |
| DataTransformation.BatchStops | src/az_search_to_milvus/data_migrator.py:78-81 | once failed, later documents change nothing |
| Values.Trunc | src/az_search_to_milvus/data_migrator.py:93 | `int()` of a float truncates toward zero: the result is within one of the input, on the side of zero |
| Values.ReadAll | src/az_search_to_milvus/data_migrator.py:122-126 | a list comprehension succeeds iff every item reads, and then holds each item's reading in order |
| DataTransformation.DataTransformer.constructor | src/az_search_to_milvus/data_migrator.py:33-41 | the field map and key field are those of the specification, and the map is well formed |
| DataTransformation.DataTransformer.TransformDocument | src/az_search_to_milvus/data_migrator.py:47-73 | the loop returns exactly `Transformed` |
| DataTransformation.DataTransformer.TransformBatch | src/az_search_to_milvus/data_migrator.py:75-82 | the loop returns exactly the batch rows |
| Migration.CallsPrefix | src/az_search_to_milvus/data_migrator.py:317-331 | the log grows by a prefix of the planned calls; the whole plan runs iff nothing raised |
| Migration.SetupCalls | src/az_search_to_milvus/data_migrator.py:317-331 | create the collection with the drop flag, then one create-index per index conversion, in order |
| Migration.LastKey | src/az_search_to_milvus/data_migrator.py:281-284 | "" without a key field or with an empty batch; else `str()` of the last document's key value |
| Migration.StartRule | src/az_search_to_milvus/data_migrator.py:233-250 | resume an in-progress checkpoint with its migrated count as skip; otherwise a fresh pending one over the document count, skip 0 |
| Migration.FirstSave | src/az_search_to_milvus/data_migrator.py:252-259 | the first save is the checkpoint marked in progress, before any Milvus call can fail |
| Migration.SetupFailureLeavesInProgress | src/az_search_to_milvus/data_migrator.py:252-262 | a setup failure leaves the in-progress checkpoint saved and nothing else saved |
| Migration.EmptyBatchChangesNothing | src/az_search_to_milvus/data_migrator.py:270-272 | an empty transformed batch changes nothing |
| Migration.BatchAdvances | src/az_search_to_milvus/data_migrator.py:274-292 | a non-empty batch is inserted (unless dry run), advances the checkpoint by its row count and last key, is saved, and is reported |
| Migration.BatchesGrow | src/az_search_to_milvus/data_migrator.py:262-292 | the log and the saves only grow; identity, total and status are kept |
| Migration.StepKeeps | src/az_search_to_milvus/data_migrator.py:268-292 | one batch keeps identity, total and status and saves at most the new record |
| Migration.LoopSaves | src/az_search_to_milvus/data_migrator.py:286-287 | every record the loop saves has the start's index and status; the last saved is the current one |
| Migration.BatchesTotals | src/az_search_to_milvus/data_migrator.py:268-292 | the migrated count grows by the rows and the batch number by the non-empty batches, one report each |
| Migration.DryRunInsertsNothing | src/az_search_to_milvus/data_migrator.py:274-278 | a dry run makes no call in the loop |
| Migration.InsertsAreNonEmpty | src/az_search_to_milvus/data_migrator.py:270-275 | every loop call inserts a non-empty row list into the collection |
| Migration.BatchesStop | src/az_search_to_milvus/data_migrator.py:262-298 | once an exception is raised, later batches are not read |
| Migration.Outcome | src/az_search_to_milvus/data_migrator.py:294-306 | an exception ends failed with its message; otherwise completed, and the collection is loaded unless dry run |
| Migration.CompletedRun | src/az_search_to_milvus/data_migrator.py:225-315 | a run without exception ends completed with the migrated count, saved last, and a real run loads the collection last |
| Migration.FailedRun | src/az_search_to_milvus/data_migrator.py:294-298 | a loop or generator exception leaves the checkpoint saved failed with its message, and re-raises it |
| Migration.FinishedSaves | src/az_search_to_milvus/data_migrator.py:286-302 | every save from the first on has the run's index name and the last is the final checkpoint |
| Migration.FinalStore | src/az_search_to_milvus/data_migrator.py:225-315 | the store ends holding the final checkpoint under its index's file |
| Migration.SaveAllLast | src/az_search_to_milvus/utils/checkpoint.py:72-75 | saves of one index leave the last record in one file |
| Migration.DataMigrator.constructor | src/az_search_to_milvus/data_migrator.py:206-219 | the transformer is built from the conversions; the store holds the checkpoint directory; no callback |
| Migration.DataMigrator.SetProgressCallback | src/az_search_to_milvus/data_migrator.py:221-223 | the callback is installed |
| Migration.DataMigrator.Transform | src/az_search_to_milvus/data_migrator.py:268 | the transformer's batch rows |
| Migration.DataMigrator.SetupCollection | src/az_search_to_milvus/data_migrator.py:317-331 | the sink's log and raise are those of the planned setup calls |
| Migration.DataMigrator.Begin | src/az_search_to_milvus/data_migrator.py:233-253 | the start checkpoint marked in progress and saved, with the skip count; a count failure raises and saves nothing |
| Migration.DataMigrator.RunBatches | src/az_search_to_milvus/data_migrator.py:262-292 | the loop's state is `Batches` of the specification |
| Migration.DataMigrator.ProcessBatch | src/az_search_to_milvus/data_migrator.py:268-292 | one iteration is `BatchStep` |
| Migration.DataMigrator.Record | src/az_search_to_milvus/data_migrator.py:281-292 | advance, save, report |
| Migration.DataMigrator.Conclude | src/az_search_to_milvus/data_migrator.py:294-302 | mark failed or completed and save |
| Migration.DataMigrator.Finish | src/az_search_to_milvus/data_migrator.py:294-306 | `Finished` of the specification |
| Migration.DataMigrator.Migrate | src/az_search_to_milvus/data_migrator.py:225-315 | the log, the store, the reports and the result are those of `Migration`; an exception is `Err` |
| Migration.StopsAfter | src/az_search_to_milvus/data_migrator.py:317-331 | after a raise, the rest of the plan is not attempted |
| Assessment.FieldDetailShape | src/az_search_to_milvus/assessment.py:80-93 | names and types; "N/A" iff no target; `renamed_to` iff renamed; confidence and flags |
| Assessment.CountersBounded | src/az_search_to_milvus/assessment.py:95-106 | lossy ≤ convertible; skipped + convertible ≤ total |
| Assessment.VerdictMeaning | src/az_search_to_milvus/assessment.py:135-140 | full iff nothing skipped or lossy; partial iff otherwise some field is convertible; complex iff neither |
| Assessment.AdvantagesShape | src/az_search_to_milvus/assessment.py:145-231 | ten advantages with vectors, else five; the vector ones first, the general ones last |
| Assessment.IdentifyAdvantages | src/az_search_to_milvus/assessment.py:145-231 | the appends build exactly `Advantages(conversion)` |
| Assessment.TallyCounts | src/az_search_to_milvus/assessment.py:95-106 | the counters count all, skipped, lossy, convertible and vector fields |
| Assessment.DetailsInOrder | src/az_search_to_milvus/assessment.py:79-94 | one detail per field, in order |
| Assessment.AnalyzeFields | src/az_search_to_milvus/assessment.py:79-106 | the field loop yields the details in order and the five counts |
| Assessment.DescribeIndexes | src/az_search_to_milvus/assessment.py:109-118 | one index detail per index conversion, in order |
| Assessment.DescribeWarnings | src/az_search_to_milvus/assessment.py:121-126 | one warning entry per warning, in order |
| Assessment.GenerateAssessment | src/az_search_to_milvus/assessment.py:68-142 | every report field, including the counts, the verdict of `VerdictOf` and the advantages |
| Validation.CountsPartition | src/az_search_to_milvus/validation.py:41-51 | pass + fail = total; all passed iff no failure iff pass = total |
| Validation.SummaryStatus | src/az_search_to_milvus/validation.py:53-57 | the summary opens "[PASS] " iff all passed, else "[FAIL] " |
| Validation.DocumentCountCheck | src/az_search_to_milvus/validation.py:110-148 | a service error fails with no values; a zero Azure count passes; otherwise both counts are reported |
| Validation.DocumentCountTolerance | src/az_search_to_milvus/validation.py:130-131 | for a positive Azure count it passes iff |a−m|·100 ≤ tolerance·a |
| Validation.EqualCountsPass | src/az_search_to_milvus/validation.py:121-131 | equal counts pass under any non-negative tolerance |
| Validation.FieldCountCheck | src/az_search_to_milvus/validation.py:150-175 | expected counts the non-skipped fields with a target; it passes iff Milvus has at least that many; an error fails with no actual |
| Validation.ExpectedAreSchemaFields | src/az_search_to_milvus/validation.py:152-155 | the expected count is the number of schema fields the converter built |
| Validation.FreshCollectionFieldCount | src/az_search_to_milvus/validation.py:150-168 | a collection holding exactly the converted schema passes the field count |
| Validation.KeyConversion | src/az_search_to_milvus/validation.py:188-191 | the first primary-key conversion; None iff there is none |
| Validation.ScalarNames | src/az_search_to_milvus/validation.py:214-219 | one name per non-skipped, non-vector field with a target |
| Validation.FillInBounded | src/az_search_to_milvus/validation.py:224-229 | non-null ≤ checked ≤ names, for one sample |
| Validation.FillBounded | src/az_search_to_milvus/validation.py:221-229 | non-null ≤ checked ≤ samples·names |
| Validation.FillRateRule | src/az_search_to_milvus/validation.py:231-235 | the fill rate exceeds 50% iff 2·non-null > checked |
| Validation.DimChecksPass | src/az_search_to_milvus/validation.py:241-252 | one passing "vector_dim_" check per vector field with a non-zero dim |
| Validation.SampleSkips | src/az_search_to_milvus/validation.py:186-211 | no key, or no data, gives one passed "sample_data" check; a failing query gives one failed one |
| Validation.SampleOutcome | src/az_search_to_milvus/validation.py:213-252 | with data, the fill-rate check (when anything was checked) passes iff more than half is filled, then the dimension checks, which all pass |
| Validation.MigrationValidator.constructor | src/az_search_to_milvus/validation.py:63-71 | the services and the conversion |
| Validation.MigrationValidator.PassedMeans | src/az_search_to_milvus/validation.py:88-175 | an all-passed report means both counts were read and agree within tolerance, and Milvus describes at least the expected fields |
| Validation.MigrationValidator.CountFilled | src/az_search_to_milvus/validation.py:221-229 | the nested loop computes `Fill` |
| Validation.MigrationValidator.CollectScalarNames | src/az_search_to_milvus/validation.py:214-219 | the comprehension yields `ScalarNames` |
| Validation.MigrationValidator.AppendDimChecks | src/az_search_to_milvus/validation.py:241-252 | appends exactly the dimension checks |
| Validation.MigrationValidator.CheckSampleData | src/az_search_to_milvus/validation.py:177-261 | returns exactly `SampleChecks` of the sampled query |
| Validation.MigrationValidator.Validate | src/az_search_to_milvus/validation.py:88-108 | document count, then field count, then the sample checks; the source's default arguments are `DefaultSampleSize` (100) and `DefaultTolerancePct` (1.0) |

## Left out

- `MigrationConfig.from_yaml`: YAML parsing and file reading are I/O. What it produces is modelled by the constructors and `Resolve`.
- Logging, `print_assessment` (console rendering) and `AssessmentReport.save_json` (file output): not modelled.
- The checkpoint's JSON file format is not modelled. The store maps file names to records, so a failing write or a corrupt file is not modelled.
- The Azure and Milvus client wrappers are not part of this model. They are represented by `DocumentSource`, `MilvusSink` and `Validation.Services`.
- `extract_documents` is given as its list of batches. Its batch-size cap and its handling of `skip_count` are not modelled; `Migration.Skip` records only the value passed.
- Floats are exact reals: no IEEE rounding. In particular, `DocumentCountTolerance` and `FillRateRule` are stated over exact arithmetic.
- Some values go through opaque `Builtins` functions, so their bytes are not modelled:
  - half-precision packing (`struct.pack("<e")`);
  - `int()` and `float()` of text;
  - `str()` of floats and containers;
  - `json.loads`.
- User-facing messages are in Japanese in the source and are paraphrased in English. Only the values they embed are kept.
  - Texts formatted from floats are not built: the percentage in the document-count message, and the fill-rate message.
  - The fill-rate check's `actual` is the rate as a float instead of the formatted text `"{rate:.1f}%"`.
- The clock is a parameter:
  - one reading per `migrate` run, for every timestamp of that run;
  - the assessment's `generated_at` is passed in.
- The progress callback is modelled as a flag plus a log of the `(migrated, total)` pairs it would receive.
- `_check_sample_data` catches any exception. Only the exception of `sample_query` is modelled: none of the later steps can raise on the modelled values.
- `_identify_advantages` computes `has_large_text` but never uses it, so the model does not compute it. The advantage texts are English paraphrases.
- Assessment.AdvantagesShape: does not state that the features are distinct.
- `_JsonFieldAdapter.__getattr__` handles attributes outside its key map by passing them through. Only the attributes the converter reads are modelled.
- JsonAdapter.FieldFromJson: accepts only a string `name` and an integer or null `dimensions`. An export with another name (such as a number) or a float dimension is rejected, while Python passes the value through to `FieldSchema`.
- JsonAdapter.FieldFromJson: a truthy `fields` that cannot be iterated (a number or `true`) counts as having sub-fields. In Python, reading it raises TypeError, but only when the field is not excluded.
- JsonAdapter.MetricFromJson: accepts only a string metric. A null or non-string `metric` is rejected, while Python stores it and `map_vector_index` maps it to COSINE.
- JsonAdapter.AlgorithmFromJson: accepts only a string `name` and `kind`. A null `kind`, which Python sends down the fallback branch of `map_vector_index` (HNSW 16/256/256 with a note), is rejected, and so are non-string names.
- JsonAdapter.ProfileFromJson: accepts only a string profile `name` and `algorithm`. Python stores other values as dict keys and values.
- In `_parse_vector_search_config`, an SDK enum metric is read through `.value`; metrics are modelled as text directly.

/** Configuration of a migration: the Azure AI Search and Milvus connection
    settings, which fall back to environment variables, and the options that
    steer schema conversion and data migration. */
module Config {
  import opened Wrappers
  import opened PyDict
  import opened Values

  /** One entry of `field_overrides`, reduced to the keys the converter reads. */
  datatype FieldOverride = FieldOverride(
    milvusName: Option<string>,
    maxLength: Option<int>,
    maxCapacity: Option<int>)

  const NoOverride := FieldOverride(None, None, None)

  datatype MigrationOptions = MigrationOptions(
    batchSize: int,
    maxWorkers: int,
    checkpointDir: string,
    dropExistingCollection: bool,
    dryRun: bool,
    fieldOverrides: Dict<string, FieldOverride>,
    excludeFields: seq<string>,
    enableDynamicField: bool,
    partitionKeyField: string,
    varcharMaxLength: int,
    arrayMaxCapacity: int)

  /** `MigrationOptions()`. */
  const DefaultOptions := MigrationOptions(
    500, 4, ".checkpoints", false, false, [], [], true, "", 65535, 4096)

  /** `value or os.environ.get(name, default)`: an explicit non-empty value
      wins; otherwise the environment, and the default when the variable is unset. */
  function OrEnv(value: string, env: map<string, string>, name: string, default: string): (r: string)
    ensures value != "" ==> r == value
    ensures value == "" && name in env ==> r == env[name]
    ensures value == "" && name !in env ==> r == default
  {
    if value != "" then value else if name in env then env[name] else default
  }

  /** Resolving twice reads the environment to the same effect as resolving once. */
  lemma OrEnvIdempotent(value: string, env: map<string, string>, name: string, default: string)
    ensures OrEnv(OrEnv(value, env, name, default), env, name, default) == OrEnv(value, env, name, default)
  {
  }

  class AzureSearchConfig {
    var endpoint: string
    var indexName: string
    var apiKey: string
    var useEntraId: bool
    var apiVersion: string

    constructor (endpoint: string, indexName: string, apiKey: string, useEntraId: bool, apiVersion: string)
      ensures this.endpoint == endpoint && this.indexName == indexName && this.apiKey == apiKey
      ensures this.useEntraId == useEntraId && this.apiVersion == apiVersion
    {
      this.endpoint := endpoint;
      this.indexName := indexName;
      this.apiKey := apiKey;
      this.useEntraId := useEntraId;
      this.apiVersion := apiVersion;
    }

    /** `AzureSearchConfig()`. */
    constructor Default()
      ensures endpoint == "" && indexName == "" && apiKey == ""
      ensures !useEntraId && apiVersion == "2024-07-01"
    {
      endpoint, indexName, apiKey := "", "", "";
      useEntraId, apiVersion := false, "2024-07-01";
    }

    /** Fills the empty endpoint, API key and index name from the environment. */
    method Resolve(env: map<string, string>)
      modifies this
      ensures endpoint == OrEnv(old(endpoint), env, "AZURE_SEARCH_ENDPOINT", "")
      ensures apiKey == OrEnv(old(apiKey), env, "AZURE_SEARCH_API_KEY", "")
      ensures indexName == OrEnv(old(indexName), env, "AZURE_SEARCH_INDEX_NAME", "")
      ensures useEntraId == old(useEntraId) && apiVersion == old(apiVersion)
    {
      endpoint := OrEnv(endpoint, env, "AZURE_SEARCH_ENDPOINT", "");
      apiKey := OrEnv(apiKey, env, "AZURE_SEARCH_API_KEY", "");
      indexName := OrEnv(indexName, env, "AZURE_SEARCH_INDEX_NAME", "");
    }
  }

  const DefaultMilvusUri := "http://localhost:19530"

  class MilvusConfig {
    var uri: string
    var token: string
    var dbName: string
    var collectionName: string
    var useZilliz: bool
    var zillizApiKey: string
    var zillizEndpoint: string

    constructor (uri: string, token: string, dbName: string, collectionName: string,
                 useZilliz: bool, zillizApiKey: string, zillizEndpoint: string)
      ensures this.uri == uri && this.token == token && this.dbName == dbName
      ensures this.collectionName == collectionName && this.useZilliz == useZilliz
      ensures this.zillizApiKey == zillizApiKey && this.zillizEndpoint == zillizEndpoint
    {
      this.uri, this.token, this.dbName, this.collectionName := uri, token, dbName, collectionName;
      this.useZilliz, this.zillizApiKey, this.zillizEndpoint := useZilliz, zillizApiKey, zillizEndpoint;
    }

    /** `MilvusConfig()`. */
    constructor Default()
      ensures uri == DefaultMilvusUri && token == "" && dbName == "default" && collectionName == ""
      ensures !useZilliz && zillizApiKey == "" && zillizEndpoint == ""
    {
      uri, token, dbName, collectionName := DefaultMilvusUri, "", "default", "";
      useZilliz, zillizApiKey, zillizEndpoint := false, "", "";
    }

    /** Fills the empty URI, token and Zilliz credentials from the environment. */
    method Resolve(env: map<string, string>)
      modifies this
      ensures uri == OrEnv(old(uri), env, "MILVUS_URI", DefaultMilvusUri)
      ensures token == OrEnv(old(token), env, "MILVUS_TOKEN", "")
      ensures zillizApiKey == OrEnv(old(zillizApiKey), env, "ZILLIZ_API_KEY", "")
      ensures zillizEndpoint == OrEnv(old(zillizEndpoint), env, "ZILLIZ_ENDPOINT", "")
      ensures dbName == old(dbName) && collectionName == old(collectionName) && useZilliz == old(useZilliz)
    {
      uri := OrEnv(uri, env, "MILVUS_URI", DefaultMilvusUri);
      token := OrEnv(token, env, "MILVUS_TOKEN", "");
      zillizApiKey := OrEnv(zillizApiKey, env, "ZILLIZ_API_KEY", "");
      zillizEndpoint := OrEnv(zillizEndpoint, env, "ZILLIZ_ENDPOINT", "");
    }

    /** The Zilliz endpoint when Zilliz is selected and the endpoint is set; the plain URI otherwise. */
    function EffectiveUri(): (r: string)
      reads this
      ensures r == zillizEndpoint <== useZilliz && zillizEndpoint != ""
      ensures r == uri <== !useZilliz || zillizEndpoint == ""
      ensures r in {uri, zillizEndpoint}
    {
      if useZilliz && zillizEndpoint != "" then zillizEndpoint else uri
    }

    /** The Zilliz API key when Zilliz is selected and the key is set; the plain token otherwise. */
    function EffectiveToken(): (r: string)
      reads this
      ensures r == zillizApiKey <== useZilliz && zillizApiKey != ""
      ensures r == token <== !useZilliz || zillizApiKey == ""
      ensures r in {token, zillizApiKey}
    {
      if useZilliz && zillizApiKey != "" then zillizApiKey else token
    }
  }

  /** A section of the serialised configuration (`asdict` of one dataclass). */
  type Section = Dict<string, Value>

  /** `d[section][key]`, or None when either is missing. */
  function Lookup(d: Dict<string, Section>, section: string, key: string): Option<Value> {
    match Get(d, section)
    case Some(sec) => Get(sec, key)
    case None => None
  }

  /** `if d[section][key]: d[section][key] = "***"`. */
  function MaskSecret(d: Dict<string, Section>, section: string, key: string): (r: Dict<string, Section>)
    ensures Keys(r) == Keys(d)
  {
    match Get(d, section)
    case None => d
    case Some(sec) =>
      match Get(sec, key)
      case Some(v) => if Truthy(v) then Set(d, section, Set(sec, key, VStr("***"))) else d
      case None => d
  }

  /** A looked-up entry after masking: a truthy value reads "***". */
  function Masked(v: Option<Value>): Option<Value> {
    match v
    case Some(x) => Some(if Truthy(x) then VStr("***") else x)
    case None => None
  }

  /** A masked string secret: "***" when non-empty, otherwise unchanged. */
  lemma MaskedString(x: string)
    ensures Masked(Some(VStr(x))) == Some(VStr(if x != "" then "***" else ""))
  {
  }

  /** Masking replaces a truthy secret by "***" and leaves every other entry alone. */
  lemma MaskSecretSpec(d: Dict<string, Section>, section: string, key: string)
    ensures Lookup(MaskSecret(d, section, key), section, key) == Masked(Lookup(d, section, key))
    ensures forall s, k :: (s, k) != (section, key) ==>
      Lookup(MaskSecret(d, section, key), s, k) == Lookup(d, s, k)
  {
    var r := MaskSecret(d, section, key);
    match Get(d, section)
    case None =>
    case Some(sec) =>
      match Get(sec, key)
      case None =>
      case Some(v) =>
        if Truthy(v) {
          var sec' := Set(sec, key, VStr("***"));
          SetGet(d, section, sec', section);
          SetGet(sec, key, VStr("***"), key);
          forall s, k | (s, k) != (section, key)
            ensures Lookup(r, s, k) == Lookup(d, s, k)
          {
            SetGet(d, section, sec', s);
            if s == section {
              SetGet(sec, key, VStr("***"), k);
            }
          }
        }
  }

  function OverrideValue(o: FieldOverride): Value {
    VDict((if o.milvusName.Some? then [("milvus_name", VStr(o.milvusName.value))] else [])
      + (if o.maxLength.Some? then [("max_length", VInt(o.maxLength.value))] else [])
      + (if o.maxCapacity.Some? then [("max_capacity", VInt(o.maxCapacity.value))] else []))
  }

  function OptionsSection(o: MigrationOptions): Section {
    [("batch_size", VInt(o.batchSize)),
     ("max_workers", VInt(o.maxWorkers)),
     ("checkpoint_dir", VStr(o.checkpointDir)),
     ("drop_existing_collection", VBool(o.dropExistingCollection)),
     ("dry_run", VBool(o.dryRun)),
     ("field_overrides", VDict(seq(|o.fieldOverrides|, i requires 0 <= i < |o.fieldOverrides| =>
        (o.fieldOverrides[i].0, OverrideValue(o.fieldOverrides[i].1))))),
     ("exclude_fields", VList(seq(|o.excludeFields|, i requires 0 <= i < |o.excludeFields| => VStr(o.excludeFields[i])))),
     ("enable_dynamic_field", VBool(o.enableDynamicField)),
     ("partition_key_field", VStr(o.partitionKeyField)),
     ("varchar_max_length", VInt(o.varcharMaxLength)),
     ("array_max_capacity", VInt(o.arrayMaxCapacity))]
  }

  /** The three entries `to_dict` masks. */
  predicate IsSecret(section: string, key: string) {
    (section, key) == ("azure_search", "api_key") || (section, key) == ("milvus", "token")
    || (section, key) == ("milvus", "zilliz_api_key")
  }

  /** The three masking steps of `to_dict`, in order. */
  function MaskSecrets(d: Dict<string, Section>): Dict<string, Section> {
    MaskSecret(MaskSecret(MaskSecret(d, "azure_search", "api_key"), "milvus", "token"), "milvus", "zilliz_api_key")
  }

  /** Each secret entry is masked and every other entry is left alone. */
  lemma MaskSecretsAt(d: Dict<string, Section>, section: string, key: string)
    ensures Lookup(MaskSecrets(d), section, key)
      == if IsSecret(section, key) then Masked(Lookup(d, section, key)) else Lookup(d, section, key)
  {
    assert |"milvus"| != |"azure_search"| && "token"[0] != "zilliz_api_key"[0];
    var d1 := MaskSecret(d, "azure_search", "api_key");
    MaskSecretSpec(d, "azure_search", "api_key");
    var d2 := MaskSecret(d1, "milvus", "token");
    MaskSecretSpec(d1, "milvus", "token");
    MaskSecretSpec(d2, "milvus", "zilliz_api_key");
  }

  /** Masking a configuration whose secrets are strings: each non-empty
      secret reads "***", an empty one stays empty, and the sections are kept. */
  lemma MaskSecretStrings(d: Dict<string, Section>, apiKey: string, token: string, zillizApiKey: string)
    requires Lookup(d, "azure_search", "api_key") == Some(VStr(apiKey))
    requires Lookup(d, "milvus", "token") == Some(VStr(token))
    requires Lookup(d, "milvus", "zilliz_api_key") == Some(VStr(zillizApiKey))
    ensures Keys(MaskSecrets(d)) == Keys(d)
    ensures Lookup(MaskSecrets(d), "azure_search", "api_key") == Some(VStr(if apiKey != "" then "***" else ""))
    ensures Lookup(MaskSecrets(d), "milvus", "token") == Some(VStr(if token != "" then "***" else ""))
    ensures Lookup(MaskSecrets(d), "milvus", "zilliz_api_key")
      == Some(VStr(if zillizApiKey != "" then "***" else ""))
  {
    var r := MaskSecrets(d);
    MaskSecretsAt(d, "azure_search", "api_key");
    assert IsSecret("azure_search", "api_key");
    assert Lookup(r, "azure_search", "api_key") == Masked(Some(VStr(apiKey)));
    MaskedString(apiKey);
    MaskSecretsAt(d, "milvus", "token");
    assert IsSecret("milvus", "token");
    assert Lookup(r, "milvus", "token") == Masked(Some(VStr(token)));
    MaskedString(token);
    MaskSecretsAt(d, "milvus", "zilliz_api_key");
    assert IsSecret("milvus", "zilliz_api_key");
    assert Lookup(r, "milvus", "zilliz_api_key") == Masked(Some(VStr(zillizApiKey)));
    MaskedString(zillizApiKey);
  }

  class MigrationConfig {
    var azureSearch: AzureSearchConfig
    var milvus: MilvusConfig
    var options: MigrationOptions

    constructor (azureSearch: AzureSearchConfig, milvus: MilvusConfig, options: MigrationOptions)
      ensures this.azureSearch == azureSearch && this.milvus == milvus && this.options == options
    {
      this.azureSearch, this.milvus, this.options := azureSearch, milvus, options;
    }

    /** Resolves both connection sections from the environment. */
    method Resolve(env: map<string, string>)
      modifies azureSearch, milvus
      ensures azureSearch.endpoint == OrEnv(old(azureSearch.endpoint), env, "AZURE_SEARCH_ENDPOINT", "")
      ensures azureSearch.apiKey == OrEnv(old(azureSearch.apiKey), env, "AZURE_SEARCH_API_KEY", "")
      ensures azureSearch.indexName == OrEnv(old(azureSearch.indexName), env, "AZURE_SEARCH_INDEX_NAME", "")
      ensures azureSearch.useEntraId == old(azureSearch.useEntraId)
      ensures azureSearch.apiVersion == old(azureSearch.apiVersion)
      ensures milvus.uri == OrEnv(old(milvus.uri), env, "MILVUS_URI", DefaultMilvusUri)
      ensures milvus.token == OrEnv(old(milvus.token), env, "MILVUS_TOKEN", "")
      ensures milvus.zillizApiKey == OrEnv(old(milvus.zillizApiKey), env, "ZILLIZ_API_KEY", "")
      ensures milvus.zillizEndpoint == OrEnv(old(milvus.zillizEndpoint), env, "ZILLIZ_ENDPOINT", "")
      ensures milvus.dbName == old(milvus.dbName) && milvus.collectionName == old(milvus.collectionName)
      ensures milvus.useZilliz == old(milvus.useZilliz)
    {
      azureSearch.Resolve(env);
      milvus.Resolve(env);
    }

    /** `dataclasses.asdict(self)`. */
    function AsDict(): Dict<string, Section>
      reads this, azureSearch, milvus
    {
      [("azure_search",
         [("endpoint", VStr(azureSearch.endpoint)),
          ("index_name", VStr(azureSearch.indexName)),
          ("api_key", VStr(azureSearch.apiKey)),
          ("use_entra_id", VBool(azureSearch.useEntraId)),
          ("api_version", VStr(azureSearch.apiVersion))]),
       ("milvus",
         [("uri", VStr(milvus.uri)),
          ("token", VStr(milvus.token)),
          ("db_name", VStr(milvus.dbName)),
          ("collection_name", VStr(milvus.collectionName)),
          ("use_zilliz", VBool(milvus.useZilliz)),
          ("zilliz_api_key", VStr(milvus.zillizApiKey)),
          ("zilliz_endpoint", VStr(milvus.zillizEndpoint))]),
       ("options", OptionsSection(options))]
    }

    lemma AsDictSecrets()
      ensures Keys(AsDict()) == ["azure_search", "milvus", "options"]
      ensures Lookup(AsDict(), "azure_search", "api_key") == Some(VStr(azureSearch.apiKey))
      ensures Lookup(AsDict(), "milvus", "token") == Some(VStr(milvus.token))
      ensures Lookup(AsDict(), "milvus", "zilliz_api_key") == Some(VStr(milvus.zillizApiKey))
    {
      var d0 := AsDict();
      assert Keys(d0) == ["azure_search", "milvus", "options"];
      GetUnique(d0, 0);
      GetUnique(d0[0].1, 2);
      GetUnique(d0, 1);
      GetUnique(d0[1].1, 1);
      GetUnique(d0[1].1, 5);
    }

    /** The serialised configuration with its three secrets masked: each
        non-empty secret reads "***" and an empty one stays empty. */
    function ToDict(): (r: Dict<string, Section>)
      reads this, azureSearch, milvus
      ensures Keys(r) == ["azure_search", "milvus", "options"]
      ensures Lookup(r, "azure_search", "api_key")
        == Some(VStr(if azureSearch.apiKey != "" then "***" else ""))
      ensures Lookup(r, "milvus", "token") == Some(VStr(if milvus.token != "" then "***" else ""))
      ensures Lookup(r, "milvus", "zilliz_api_key")
        == Some(VStr(if milvus.zillizApiKey != "" then "***" else ""))
    {
      var d := AsDict();
      AsDictSecrets();
      MaskSecretStrings(d, azureSearch.apiKey, milvus.token, milvus.zillizApiKey);
      MaskSecrets(d)
    }

    /** Every entry other than the three secrets is exactly as `asdict` produced it. */
    lemma ToDictKeepsOthers(section: string, key: string)
      requires !IsSecret(section, key)
      ensures Lookup(ToDict(), section, key) == Lookup(AsDict(), section, key)
    {
      MaskSecretsAt(AsDict(), section, key);
    }
  }
}

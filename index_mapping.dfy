/** Mapping of Azure AI Search vector algorithms (hnsw, exhaustiveKnn) onto
    Milvus index settings, and the catalogue of Milvus index types that have
    no Azure counterpart. */
module IndexMappings {
  import opened Wrappers
  import opened PyDict
  import opened Values

  /** Azure distance metric name to Milvus metric type; the lookup is
      case-sensitive. */
  const MetricMap: Dict<string, string> := [
    ("cosine", "COSINE"),
    ("euclidean", "L2"),
    ("dotProduct", "IP"),
    ("hamming", "HAMMING")
  ]

  /** A resolved Milvus index: build parameters and search parameters keep
      the insertion order of the Python dicts. */
  datatype MilvusIndexConfig = MilvusIndexConfig(
    indexType: string,
    metricType: string,
    params: Dict<string, Value>,
    searchParams: Dict<string, Value>,
    notes: string)

  /** `d.get(k, default)`. */
  function GetOr(d: Dict<string, Value>, k: string, default: Value): (v: Value)
    ensures k in Keys(d) ==> v == Get(d, k).value
    ensures k !in Keys(d) ==> v == default
  {
    Get(d, k).GetOr(default)
  }

  /** `METRIC_MAP.get(metric, "COSINE")`. */
  function MetricType(metric: string): (m: string)
    ensures metric == "cosine" ==> m == "COSINE"
    ensures metric == "euclidean" ==> m == "L2"
    ensures metric == "dotProduct" ==> m == "IP"
    ensures metric == "hamming" ==> m == "HAMMING"
    ensures metric !in {"cosine", "euclidean", "dotProduct", "hamming"} ==> m == "COSINE"
    ensures m in {"COSINE", "L2", "IP", "HAMMING"}
  {
    assert Keys(MetricMap) == ["cosine", "euclidean", "dotProduct", "hamming"];
    assert Get(MetricMap, "cosine") == Some("COSINE") by { GetUnique(MetricMap, 0); }
    assert Get(MetricMap, "euclidean") == Some("L2") by { GetUnique(MetricMap, 1); }
    assert Get(MetricMap, "dotProduct") == Some("IP") by { GetUnique(MetricMap, 2); }
    assert Get(MetricMap, "hamming") == Some("HAMMING") by { GetUnique(MetricMap, 3); }
    Get(MetricMap, metric).GetOr("COSINE")
  }

  const UnknownKindPrefix := "Unknown algorithm '"

  function UnknownKindNote(kind: string): string {
    UnknownKindPrefix + kind + "', falling back to HNSW defaults"
  }

  /** `map_vector_index(algorithm_kind=kind, metric=metric, hnsw_params=hnswParams)`;
      `hnswParams` is None when the caller passes no HNSW parameters. */
  function MapVectorIndex(kind: string, metric: string, hnswParams: Option<Dict<string, Value>>): (r: MilvusIndexConfig)
    ensures r.metricType == MetricType(metric)
    ensures r.indexType in {"HNSW", "FLAT"}
    ensures r.metricType in {"COSINE", "L2", "IP", "HAMMING"}
    ensures kind == "hnsw" ==>
      var p := hnswParams.GetOr([]);
      && r.indexType == "HNSW"
      && Keys(r.params) == ["M", "efConstruction"] && Keys(r.searchParams) == ["ef"]
      && Get(r.params, "M") == Some(if "m" in Keys(p) then Get(p, "m").value else VInt(4))
      && Get(r.params, "efConstruction")
         == Some(if "efConstruction" in Keys(p) then Get(p, "efConstruction").value else VInt(400))
      && Get(r.searchParams, "ef") == Some(if "efSearch" in Keys(p) then Get(p, "efSearch").value else VInt(500))
    ensures kind == "exhaustiveKnn" ==> r.indexType == "FLAT" && r.params == [] && r.searchParams == []
    ensures kind != "hnsw" && kind != "exhaustiveKnn" ==>
      && r.indexType == "HNSW"
      && r.params == [("M", VInt(16)), ("efConstruction", VInt(256))]
      && r.searchParams == [("ef", VInt(256))]
      && exists i, j :: 0 <= i <= j <= |r.notes| && r.notes[i..j] == kind
  {
    var metricType := MetricType(metric);
    if kind == "hnsw" then
      var p := hnswParams.GetOr([]);
      MilvusIndexConfig(
        "HNSW", metricType,
        [("M", GetOr(p, "m", VInt(4))), ("efConstruction", GetOr(p, "efConstruction", VInt(400)))],
        [("ef", GetOr(p, "efSearch", VInt(500)))],
        "HNSW parameters carried over 1:1 from Azure AI Search")
    else if kind == "exhaustiveKnn" then
      MilvusIndexConfig("FLAT", metricType, [], [], "Exhaustive KNN becomes Milvus FLAT (brute force)")
    else
      var notes := UnknownKindNote(kind);
      assert notes[|UnknownKindPrefix|..|UnknownKindPrefix| + |kind|] == kind;
      MilvusIndexConfig("HNSW", metricType, [("M", VInt(16)), ("efConstruction", VInt(256))], [("ef", VInt(256))], notes)
  }

  /** An HNSW algorithm with no parameters behaves as one with an empty
      parameter dict, and both get Azure's defaults M=4, efConstruction=400, ef=500. */
  lemma HnswDefaults(metric: string)
    ensures MapVectorIndex("hnsw", metric, None) == MapVectorIndex("hnsw", metric, Some([]))
    ensures var r := MapVectorIndex("hnsw", metric, None);
      r.params == [("M", VInt(4)), ("efConstruction", VInt(400))] && r.searchParams == [("ef", VInt(500))]
  {
  }

  /** An index type Milvus offers that Azure AI Search lacks. */
  datatype MilvusOnlyIndex = MilvusOnlyIndex(
    name: string,
    description: string,
    useCase: string,
    paramsExample: Dict<string, Value>,
    requiresGpu: bool)

  const MilvusExclusiveIndexes: seq<MilvusOnlyIndex> := [
    MilvusOnlyIndex("IVF_FLAT", "Inverted file index with flat quantization",
      "Balances memory and speed; millions to tens of millions of records", [("nlist", VInt(1024))], false),
    MilvusOnlyIndex("IVF_SQ8", "IVF with 8-bit scalar quantization",
      "Cuts memory by 70-75% where a small loss of accuracy is acceptable", [("nlist", VInt(1024))], false),
    MilvusOnlyIndex("IVF_PQ", "IVF with product quantization",
      "Large memory savings on very large datasets", [("nlist", VInt(1024)), ("m", VInt(8)), ("nbits", VInt(8))], false),
    MilvusOnlyIndex("SCANN", "Score-aware quantization with anisotropic vector quantization",
      "More accurate than IVF_PQ", [("nlist", VInt(1024)), ("with_raw_data", VBool(true))], false),
    MilvusOnlyIndex("DiskANN", "Disk-based ANN index",
      "Datasets that do not fit in memory, on SSD/NVMe storage", [], false),
    MilvusOnlyIndex("GPU_IVF_FLAT", "IVF_FLAT on GPU",
      "High-throughput search on GPU virtual machines", [("nlist", VInt(1024))], true),
    MilvusOnlyIndex("GPU_IVF_PQ", "IVF_PQ on GPU",
      "Fast search over large datasets on GPU", [("nlist", VInt(1024)), ("m", VInt(8)), ("nbits", VInt(8))], true),
    MilvusOnlyIndex("GPU_CAGRA", "GPU-native graph index",
      "Best performance on GPU; real-time vector search", [("intermediate_graph_degree", VInt(64)), ("graph_degree", VInt(32))], true),
    MilvusOnlyIndex("GPU_BRUTE_FORCE", "GPU brute-force search",
      "Small to medium datasets that need 100% recall", [], true),
    MilvusOnlyIndex("SPARSE_INVERTED_INDEX", "Inverted index for sparse vectors",
      "Hybrid search over sparse representations such as BM25 or SPLADE", [("drop_ratio_build", VFloat(0.2))], false),
    MilvusOnlyIndex("SPARSE_WAND", "WAND algorithm for sparse vectors",
      "Fast top-k search over large sparse vectors", [("drop_ratio_build", VFloat(0.2))], false)
  ]

  predicate HasGpuPrefix(s: string) {
    |s| >= 4 && s[0] == 'G' && s[1] == 'P' && s[2] == 'U' && s[3] == '_'
  }

  /** Eleven index types with distinct names. */
  lemma ExclusiveIndexNames()
    ensures |MilvusExclusiveIndexes| == 11
    ensures forall i, j :: 0 <= i < j < |MilvusExclusiveIndexes| ==>
      MilvusExclusiveIndexes[i].name != MilvusExclusiveIndexes[j].name
  {
    var names := seq(|MilvusExclusiveIndexes|, i requires 0 <= i < |MilvusExclusiveIndexes| => MilvusExclusiveIndexes[i].name);
    assert names == ["IVF_FLAT", "IVF_SQ8", "IVF_PQ", "SCANN", "DiskANN", "GPU_IVF_FLAT", "GPU_IVF_PQ",
                     "GPU_CAGRA", "GPU_BRUTE_FORCE", "SPARSE_INVERTED_INDEX", "SPARSE_WAND"];
  }

  /** Exactly four index types, the sixth to the ninth, need a GPU. */
  lemma ExclusiveGpuIndexes()
    ensures forall i :: 0 <= i < |MilvusExclusiveIndexes| ==>
      (MilvusExclusiveIndexes[i].requiresGpu <==> 5 <= i < 9)
  {
    var xs := MilvusExclusiveIndexes;
    var flags := seq(|xs|, i requires 0 <= i < |xs| => xs[i].requiresGpu);
    assert forall i :: 0 <= i < |xs| ==> flags[i] == xs[i].requiresGpu;
    assert flags == [false, false, false, false, false, true, true, true, true, false, false];
  }

  /** An index type needs a GPU exactly when its name starts with "GPU_". */
  lemma GpuIndexesByName()
    ensures forall i :: 0 <= i < |MilvusExclusiveIndexes| ==>
      (MilvusExclusiveIndexes[i].requiresGpu <==> HasGpuPrefix(MilvusExclusiveIndexes[i].name))
  {
    ExclusiveGpuIndexes();
    var xs := MilvusExclusiveIndexes;
    assert forall i :: 0 <= i < |xs| ==> (HasGpuPrefix(xs[i].name) <==> 5 <= i < 9);
  }
}

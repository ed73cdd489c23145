/** The adapters that let the schema converter read an index exported as
    REST JSON: each one answers the attribute reads of the SDK object with
    `d.get(key, default)` on the JSON object, under the REST key names. */
module JsonAdapter {
  import opened Wrappers
  import opened PyDict
  import opened Values
  import opened SchemaModel

  /** `d.get(key, default)` on a JSON object: the first entry under `key`. */
  function Attr(d: Dict<string, Value>, key: string, default: Value): Value
    decreases |d|
  {
    if d == [] then default
    else if d[0].0 == key then d[0].1
    else Attr(d[1..], key, default)
  }

  /** `Attr` is the dict lookup of the dict model. */
  lemma {:induction false} AttrIsGet(d: Dict<string, Value>, key: string, default: Value)
    ensures Attr(d, key, default) == Get(d, key).GetOr(default)
    decreases |d|
  {
    if d != [] {
      AttrIsGet(d[1..], key, default);
      GetAppend([d[0]], d[1..], key);
      assert [d[0]] + d[1..] == d;
      assert Keys([d[0]]) == [d[0].0];
    }
  }

  /** A value the converter uses as a text (a name, a kind, a metric). */
  function TextOf(v: Value, what: string): (r: Result<string, string>)
    ensures r.Ok? <==> v.VStr?
    ensures r.Ok? ==> r.value == v.s
  {
    if v.VStr? then Ok(v.s) else Err(what + " must be a string")
  }

  /** `d.get(key, [])` iterated over: absent means no items. */
  function ItemsOf(d: Dict<string, Value>, key: string): (r: Result<seq<Value>, string>)
    ensures r.Ok? <==> Attr(d, key, VList([])).VList?
    ensures r.Ok? ==> r.value == Attr(d, key, VList([])).items
  {
    var v := Attr(d, key, VList([]));
    if v.VList? then Ok(v.items) else Err("'" + key + "' must be a list")
  }

  /** `_JsonFieldAdapter`: a field object. A missing type reads as the text
      "None", `key` and `fields` count by their truthiness, and a null
      profile or dimension is no profile or dimension. */
  function FieldFromJson(py: Builtins, v: Value): (r: Result<SourceField, string>)
    ensures !v.VDict? ==> r.Err?
    ensures r.Ok? ==>
      var d := v.entries;
      && r.value.edmType == Str(py, Attr(d, "type", VNull))
      && r.value.isKey == Truthy(Attr(d, "key", VNull))
      && r.value.hasSubFields == Truthy(Attr(d, "fields", VNull))
      && (r.value.vectorProfile.Some? <==> Attr(d, "vectorSearchProfile", VNull) != VNull)
      && (r.value.dimensions.None? <==> Attr(d, "dimensions", VNull) == VNull)
  {
    match v
    case VDict(d) =>
      var nameValue := Attr(d, "name", VNull);
      var profile := Attr(d, "vectorSearchProfile", VNull);
      var dims := Attr(d, "dimensions", VNull);
      if !nameValue.VStr? then Err("field name must be a string")
      else if !(dims.VNull? || dims.VInt?) then Err("'dimensions' must be an integer")
      else
        Ok(SourceField(
          nameValue.s,
          Str(py, Attr(d, "type", VNull)),
          Truthy(Attr(d, "key", VNull)),
          if profile.VNull? then None else Some(Str(py, profile)),
          if dims.VInt? then Some(dims.i) else None,
          Truthy(Attr(d, "fields", VNull))))
    case _ => Err("a field must be a JSON object")
  }

  /** The metric of a parameter object: `p.get("metric", "cosine")`. */
  function MetricFromJson(p: Dict<string, Value>): (r: Result<string, string>)
    ensures r.Ok? <==> Attr(p, "metric", VStr("cosine")).VStr?
  {
    TextOf(Attr(p, "metric", VStr("cosine")), "metric")
  }

  /** `_JsonVectorAlgoAdapter`: name "" and kind "hnsw" by default; HNSW
      parameters default to m 4, efConstruction 400, efSearch 500 and metric
      cosine, and an empty parameter object counts as none. */
  function AlgorithmFromJson(v: Value): (r: Result<VectorAlgorithm, string>)
    ensures !v.VDict? ==> r.Err?
    ensures r.Ok? ==>
      var d := v.entries;
      && (r.value.hnsw.Some? <==> Truthy(Attr(d, "hnswParameters", VDict([]))))
      && (r.value.exhaustiveKnnMetric.Some? <==> Truthy(Attr(d, "exhaustiveKnnParameters", VDict([]))))
      && VStr(r.value.kind) == Attr(d, "kind", VStr("hnsw"))
      && (r.value.hnsw.Some? ==> Attr(d, "hnswParameters", VDict([])).VDict?)
      && (r.value.hnsw.Some? ==>
            var hp := Attr(d, "hnswParameters", VDict([])).entries;
            && r.value.hnsw.value.m == Attr(hp, "m", VInt(4))
            && r.value.hnsw.value.efConstruction == Attr(hp, "efConstruction", VInt(400))
            && r.value.hnsw.value.efSearch == Attr(hp, "efSearch", VInt(500)))
  {
    match v
    case VDict(d) =>
      var name := TextOf(Attr(d, "name", VStr("")), "algorithm name");
      var kind := TextOf(Attr(d, "kind", VStr("hnsw")), "algorithm kind");
      var hp := Attr(d, "hnswParameters", VDict([]));
      var ekp := Attr(d, "exhaustiveKnnParameters", VDict([]));
      if name.Err? then Err(name.error)
      else if kind.Err? then Err(kind.error)
      else if Truthy(hp) && !hp.VDict? then Err("'hnswParameters' must be an object")
      else if Truthy(ekp) && !ekp.VDict? then Err("'exhaustiveKnnParameters' must be an object")
      else
        var hm := if Truthy(hp) then MetricFromJson(hp.entries) else Ok("");
        var em := if Truthy(ekp) then MetricFromJson(ekp.entries) else Ok("");
        if hm.Err? then Err(hm.error)
        else if em.Err? then Err(em.error)
        else
          Ok(VectorAlgorithm(
            name.value,
            kind.value,
            if Truthy(hp) then
              Some(HnswParameters(
                Attr(hp.entries, "m", VInt(4)),
                Attr(hp.entries, "efConstruction", VInt(400)),
                Attr(hp.entries, "efSearch", VInt(500)),
                hm.value))
            else None,
            if Truthy(ekp) then Some(em.value) else None))
    case _ => Err("an algorithm must be a JSON object")
  }

  /** `_JsonVectorProfileAdapter`: the algorithm is named by `algorithm`, or
      failing that by `algorithmConfigurationName`. */
  function ProfileFromJson(v: Value): (r: Result<VectorProfile, string>)
    ensures !v.VDict? ==> r.Err?
    ensures r.Ok? ==>
      VStr(r.value.algorithm) == Attr(v.entries, "algorithm", Attr(v.entries, "algorithmConfigurationName", VStr("")))
  {
    match v
    case VDict(d) =>
      var name := TextOf(Attr(d, "name", VStr("")), "profile name");
      var algorithm := TextOf(Attr(d, "algorithm", Attr(d, "algorithmConfigurationName", VStr(""))), "profile algorithm");
      if name.Err? then Err(name.error)
      else if algorithm.Err? then Err(algorithm.error)
      else Ok(VectorProfile(name.value, algorithm.value))
    case _ => Err("a profile must be a JSON object")
  }

  /** `_JsonVectorSearchAdapter`. */
  function VectorSearchFromJson(v: Value): (r: Result<VectorSearch, string>)
    ensures !v.VDict? ==> r.Err?
  {
    match v
    case VDict(d) =>
      var algorithms := ItemsOf(d, "algorithms");
      var profiles := ItemsOf(d, "profiles");
      if algorithms.Err? then Err(algorithms.error)
      else if profiles.Err? then Err(profiles.error)
      else
        var algos := ReadAll(algorithms.value, AlgorithmFromJson);
        var ps := ReadAll(profiles.value, ProfileFromJson);
        if algos.Err? then Err(algos.error)
        else if ps.Err? then Err(ps.error)
        else Ok(VectorSearch(algos.value, ps.value))
    case _ => Err("'vectorSearch' must be an object")
  }

  /** `_JsonIndexAdapter`: the index is named "unknown" when the export has no
      name, a falsy `vectorSearch` means none, and both the semantic settings
      and the semantic search read the one `semantic` key. */
  function IndexFromJson(py: Builtins, v: Value): (r: Result<SourceIndex, string>)
    ensures !v.VDict? ==> r.Err?
    ensures r.Ok? ==>
      var d := v.entries;
      && VStr(r.value.name) == Attr(d, "name", VStr("unknown"))
      && Attr(d, "fields", VList([])).VList?
      && |r.value.fields| == |Attr(d, "fields", VList([])).items|
      && (r.value.vectorSearch.Some? <==> Truthy(Attr(d, "vectorSearch", VNull)))
      && r.value.hasScoringProfiles == Truthy(Attr(d, "scoringProfiles", VNull))
      && r.value.hasSuggesters == Truthy(Attr(d, "suggesters", VNull))
      && r.value.hasSemanticSettings == r.value.hasSemanticSearch == Truthy(Attr(d, "semantic", VNull))
  {
    match v
    case VDict(d) =>
      var name := TextOf(Attr(d, "name", VStr("unknown")), "index name");
      var items := ItemsOf(d, "fields");
      var vs := Attr(d, "vectorSearch", VNull);
      if name.Err? then Err(name.error)
      else if items.Err? then Err(items.error)
      else
        var fields := ReadAll(items.value, (f: Value) => FieldFromJson(py, f));
        var vectorSearch := if Truthy(vs) then VectorSearchFromJson(vs) else Ok(VectorSearch([], []));
        if fields.Err? then Err(fields.error)
        else if vectorSearch.Err? then Err(vectorSearch.error)
        else
          var semantic := Truthy(Attr(d, "semantic", VNull));
          Ok(SourceIndex(
            name.value,
            fields.value,
            if Truthy(vs) then Some(vectorSearch.value) else None,
            Truthy(Attr(d, "scoringProfiles", VNull)),
            Truthy(Attr(d, "suggesters", VNull)),
            semantic,
            semantic))
    case _ => Err("an index must be a JSON object")
  }

  /** An empty export reads as an index named "unknown" with nothing in it. */
  lemma EmptyExport(py: Builtins)
    ensures IndexFromJson(py, VDict([])) == Ok(SourceIndex("unknown", [], None, false, false, false, false))
  {
  }

  // ---------------------------------------------------------------------
  // The REST export shape, for the round trip
  // ---------------------------------------------------------------------

  /** A truthy placeholder for an attribute whose contents the converter only tests. */
  const Present := VList([VNull])

  /** An object with one more entry in front. */
  function Cons(k: string, v: Value, rest: Dict<string, Value>): (d: Dict<string, Value>)
    ensures forall k', default :: Attr(d, k', default) == if k' == k then v else Attr(rest, k', default)
  {
    assert ([(k, v)] + rest)[1..] == rest;
    [(k, v)] + rest
  }

  /** An object with an entry in front when there is a value for it. */
  function Opt(k: string, v: Option<Value>, rest: Dict<string, Value>): (d: Dict<string, Value>)
    ensures forall k', default :: Attr(d, k', default) == if k' == k && v.Some? then v.value else Attr(rest, k', default)
  {
    if v.Some? then Cons(k, v.value, rest) else rest
  }

  /** A field object from its encoded parts. */
  function FieldObject(name: string, edmType: string, key: bool, profile: Option<Value>, dims: Option<Value>, sub: bool): (d: Dict<string, Value>)
    ensures Attr(d, "name", VNull) == VStr(name)
    ensures Attr(d, "type", VNull) == VStr(edmType)
    ensures Attr(d, "key", VNull) == VBool(key)
    ensures Attr(d, "vectorSearchProfile", VNull) == profile.GetOr(VNull)
    ensures Attr(d, "dimensions", VNull) == dims.GetOr(VNull)
    ensures Attr(d, "fields", VNull) == if sub then Present else VNull
  {
    Cons("name", VStr(name), Cons("type", VStr(edmType), Cons("key", VBool(key),
      Opt("vectorSearchProfile", profile, Opt("dimensions", dims,
      Opt("fields", if sub then Some(Present) else None, []))))))
  }

  function FieldToJson(f: SourceField): Value {
    VDict(FieldObject(f.name, f.edmType, f.isKey,
      if f.vectorProfile.Some? then Some(VStr(f.vectorProfile.value)) else None,
      if f.dimensions.Some? then Some(VInt(f.dimensions.value)) else None,
      f.hasSubFields))
  }

  /** An HNSW parameter object. */
  function HnswObject(h: HnswParameters): (d: Dict<string, Value>)
    ensures d != []
    ensures Attr(d, "m", VInt(4)) == h.m
    ensures Attr(d, "efConstruction", VInt(400)) == h.efConstruction
    ensures Attr(d, "efSearch", VInt(500)) == h.efSearch
    ensures Attr(d, "metric", VStr("cosine")) == VStr(h.metric)
  {
    Cons("m", h.m, Cons("efConstruction", h.efConstruction,
      Cons("efSearch", h.efSearch, Cons("metric", VStr(h.metric), []))))
  }

  /** A parameter object holding only a metric. */
  function MetricObject(metric: string): (d: Dict<string, Value>)
    ensures d != []
    ensures Attr(d, "metric", VStr("cosine")) == VStr(metric)
  {
    Cons("metric", VStr(metric), [])
  }

  /** An algorithm object from its encoded parts. */
  function AlgorithmObject(name: string, kind: string, hnsw: Option<Value>, exhaustive: Option<Value>): (d: Dict<string, Value>)
    ensures Attr(d, "name", VStr("")) == VStr(name)
    ensures Attr(d, "kind", VStr("hnsw")) == VStr(kind)
    ensures Attr(d, "hnswParameters", VDict([])) == hnsw.GetOr(VDict([]))
    ensures Attr(d, "exhaustiveKnnParameters", VDict([])) == exhaustive.GetOr(VDict([]))
  {
    Cons("name", VStr(name), Cons("kind", VStr(kind),
      Opt("hnswParameters", hnsw, Opt("exhaustiveKnnParameters", exhaustive, []))))
  }

  function AlgorithmToJson(a: VectorAlgorithm): Value {
    VDict(AlgorithmObject(a.name, a.kind,
      if a.hnsw.Some? then Some(VDict(HnswObject(a.hnsw.value))) else None,
      if a.exhaustiveKnnMetric.Some? then Some(VDict(MetricObject(a.exhaustiveKnnMetric.value))) else None))
  }

  function ProfileToJson(p: VectorProfile): Value {
    VDict(Cons("name", VStr(p.name), Cons("algorithm", VStr(p.algorithm), [])))
  }

  /** A JSON list of the encoded items. */
  function ListOf<A>(xs: seq<A>, enc: A -> Value): Value {
    VList(seq(|xs|, i requires 0 <= i < |xs| => enc(xs[i])))
  }

  function VectorSearchToJson(vs: VectorSearch): (v: Value)
    ensures v.VDict? && v.entries != []
    ensures Attr(v.entries, "algorithms", VList([])) == ListOf(vs.algorithms, AlgorithmToJson)
    ensures Attr(v.entries, "profiles", VList([])) == ListOf(vs.profiles, ProfileToJson)
  {
    VDict(Cons("algorithms", ListOf(vs.algorithms, AlgorithmToJson),
      Cons("profiles", ListOf(vs.profiles, ProfileToJson), [])))
  }

  /** The attributes of an index object the converter only tests for. */
  function FeatureFlags(scoring: bool, suggesters: bool, semantic: bool): (d: Dict<string, Value>)
    ensures Attr(d, "vectorSearch", VNull) == VNull
    ensures Attr(d, "scoringProfiles", VNull) == if scoring then Present else VNull
    ensures Attr(d, "suggesters", VNull) == if suggesters then Present else VNull
    ensures Attr(d, "semantic", VNull) == if semantic then Present else VNull
  {
    Opt("scoringProfiles", if scoring then Some(Present) else None,
    Opt("suggesters", if suggesters then Some(Present) else None,
    Opt("semantic", if semantic then Some(Present) else None, [])))
  }

  /** The optional part of an index object: the vector search settings and
      the attributes the converter only tests for. */
  function IndexExtras(vectorSearch: Option<Value>, scoring: bool, suggesters: bool, semantic: bool): (d: Dict<string, Value>)
    ensures Attr(d, "vectorSearch", VNull) == vectorSearch.GetOr(VNull)
    ensures Attr(d, "scoringProfiles", VNull) == if scoring then Present else VNull
    ensures Attr(d, "suggesters", VNull) == if suggesters then Present else VNull
    ensures Attr(d, "semantic", VNull) == if semantic then Present else VNull
  {
    Opt("vectorSearch", vectorSearch, FeatureFlags(scoring, suggesters, semantic))
  }

  /** An index object from its encoded parts. */
  function IndexObject(name: string, fields: Value, vectorSearch: Option<Value>, scoring: bool, suggesters: bool, semantic: bool): (d: Dict<string, Value>)
    ensures Attr(d, "name", VStr("unknown")) == VStr(name)
    ensures Attr(d, "fields", VList([])) == fields
    ensures Attr(d, "vectorSearch", VNull) == vectorSearch.GetOr(VNull)
    ensures Attr(d, "scoringProfiles", VNull) == if scoring then Present else VNull
    ensures Attr(d, "suggesters", VNull) == if suggesters then Present else VNull
    ensures Attr(d, "semantic", VNull) == if semantic then Present else VNull
  {
    Cons("name", VStr(name), Cons("fields", fields, IndexExtras(vectorSearch, scoring, suggesters, semantic)))
  }

  function IndexToJson(x: SourceIndex): Value {
    VDict(IndexObject(x.name, ListOf(x.fields, FieldToJson),
      if x.vectorSearch.Some? then Some(VectorSearchToJson(x.vectorSearch.value)) else None,
      x.hasScoringProfiles, x.hasSuggesters, x.hasSemanticSettings))
  }

  /** Reading a list back item by item recovers it when each item reads back. */
  lemma ReadAllInverse<A>(xs: seq<A>, enc: A -> Value, read: Value -> Result<A, string>)
    requires forall i :: 0 <= i < |xs| ==> read(enc(xs[i])) == Ok(xs[i])
    ensures ReadAll(ListOf(xs, enc).items, read) == Ok(xs)
  {
    var ys := ListOf(xs, enc).items;
    assert forall i :: 0 <= i < |xs| ==> ys[i] == enc(xs[i]);
    var r := ReadAll(ys, read);
    assert r.Ok?;
    assert r.value == xs;
  }

  /** A field written in the REST export shape reads back as itself. */
  lemma FieldRoundTrip(py: Builtins, f: SourceField)
    ensures FieldFromJson(py, FieldToJson(f)) == Ok(f)
  {
    assert Truthy(Present);
  }

  /** So does an algorithm configuration, its parameters included. */
  lemma AlgorithmRoundTrip(a: VectorAlgorithm)
    ensures AlgorithmFromJson(AlgorithmToJson(a)) == Ok(a)
  {
  }

  /** So does a vector profile. */
  lemma ProfileRoundTrip(p: VectorProfile)
    ensures ProfileFromJson(ProfileToJson(p)) == Ok(p)
  {
  }

  /** So do the vector search settings, list by list. */
  lemma VectorSearchRoundTrip(vs: VectorSearch)
    ensures VectorSearchFromJson(VectorSearchToJson(vs)) == Ok(vs)
  {
    forall i | 0 <= i < |vs.algorithms| ensures AlgorithmFromJson(AlgorithmToJson(vs.algorithms[i])) == Ok(vs.algorithms[i]) {
      AlgorithmRoundTrip(vs.algorithms[i]);
    }
    forall i | 0 <= i < |vs.profiles| ensures ProfileFromJson(ProfileToJson(vs.profiles[i])) == Ok(vs.profiles[i]) {
      ProfileRoundTrip(vs.profiles[i]);
    }
    ReadAllInverse(vs.algorithms, AlgorithmToJson, AlgorithmFromJson);
    ReadAllInverse(vs.profiles, ProfileToJson, ProfileFromJson);
  }

  /** An object whose attributes read back as the parts of `x` reads as `x`. */
  lemma IndexFromParts(py: Builtins, d: Dict<string, Value>, x: SourceIndex)
    requires Attr(d, "name", VStr("unknown")) == VStr(x.name)
    requires ItemsOf(d, "fields").Ok?
    requires ReadAll(ItemsOf(d, "fields").value, (f: Value) => FieldFromJson(py, f)) == Ok(x.fields)
    requires Truthy(Attr(d, "vectorSearch", VNull)) == x.vectorSearch.Some?
    requires x.vectorSearch.Some? ==> VectorSearchFromJson(Attr(d, "vectorSearch", VNull)) == Ok(x.vectorSearch.value)
    requires Truthy(Attr(d, "scoringProfiles", VNull)) == x.hasScoringProfiles
    requires Truthy(Attr(d, "suggesters", VNull)) == x.hasSuggesters
    requires Truthy(Attr(d, "semantic", VNull)) == x.hasSemanticSettings == x.hasSemanticSearch
    ensures IndexFromJson(py, VDict(d)) == Ok(x)
  {
  }

  /** An index object built from parts that read back reads back as the index. */
  lemma IndexFromObject(py: Builtins, x: SourceIndex, fields: Value, vectorSearch: Option<Value>)
    requires x.hasSemanticSettings == x.hasSemanticSearch
    requires fields.VList? && ReadAll(fields.items, (f: Value) => FieldFromJson(py, f)) == Ok(x.fields)
    requires vectorSearch.Some? == x.vectorSearch.Some?
    requires vectorSearch.Some? ==>
      Truthy(vectorSearch.value) && VectorSearchFromJson(vectorSearch.value) == Ok(x.vectorSearch.value)
    ensures IndexFromJson(py, VDict(IndexObject(x.name, fields, vectorSearch,
      x.hasScoringProfiles, x.hasSuggesters, x.hasSemanticSettings))) == Ok(x)
  {
    var d := IndexObject(x.name, fields, vectorSearch, x.hasScoringProfiles, x.hasSuggesters, x.hasSemanticSettings);
    assert Truthy(Present);
    IndexFromParts(py, d, x);
  }

  /** An index written in the REST export shape reads back as itself, as long
      as its semantic settings and semantic search agree (the adapter reads
      both from one key). */
  lemma IndexRoundTrip(py: Builtins, x: SourceIndex)
    requires x.hasSemanticSettings == x.hasSemanticSearch
    ensures IndexFromJson(py, IndexToJson(x)) == Ok(x)
  {
    var readField := (f: Value) => FieldFromJson(py, f);
    forall i | 0 <= i < |x.fields| ensures readField(FieldToJson(x.fields[i])) == Ok(x.fields[i]) {
      FieldRoundTrip(py, x.fields[i]);
    }
    ReadAllInverse(x.fields, FieldToJson, readField);
    var vectorSearch := if x.vectorSearch.Some? then Some(VectorSearchToJson(x.vectorSearch.value)) else None;
    if x.vectorSearch.Some? {
      VectorSearchRoundTrip(x.vectorSearch.value);
    }
    IndexFromObject(py, x, ListOf(x.fields, FieldToJson), vectorSearch);
  }
}

/** Post-migration validation: the document-count, field-count and sample
    checks over the two services, and the report that aggregates them. The
    services' answers are function values; an exception is an `Err`. */
module Validation {
  import opened Wrappers
  import opened PyDict
  import opened Values
  import opened Counting
  import opened SchemaModel
  import opened SchemaConversion
  import Config

  /** `ValidationCheck`; `expected` and `actual` are `VNull` where Python
      leaves them None. */
  datatype ValidationCheck = ValidationCheck(name: string, passed: bool, expected: Value, actual: Value, message: string)

  /** `ValidationReport`. */
  datatype ValidationReport = ValidationReport(checks: seq<ValidationCheck>)

  predicate Passed(c: ValidationCheck) { c.passed }
  predicate NotPassed(c: ValidationCheck) { !c.passed }

  const PassTag := "[PASS] "
  const FailTag := "[FAIL] "

  /** `all_passed`. */
  predicate AllPassed(r: ValidationReport) {
    forall i :: 0 <= i < |r.checks| ==> r.checks[i].passed
  }

  /** `pass_count`. */
  function PassCount(r: ValidationReport): nat {
    Count(r.checks, Passed)
  }

  /** `fail_count`. */
  function FailCount(r: ValidationReport): nat {
    Count(r.checks, NotPassed)
  }

  /** `summary()`. */
  function SummaryLine(r: ValidationReport): string {
    (if AllPassed(r) then PassTag else FailTag) + IntText(PassCount(r)) + "/" + IntText(|r.checks|)
      + " checks passed"
  }

  /** Every check passes or fails; the report passes exactly when none
      fails, that is when every check is counted as passed. */
  lemma CountsPartition(r: ValidationReport)
    ensures PassCount(r) + FailCount(r) == |r.checks|
    ensures AllPassed(r) <==> FailCount(r) == 0
    ensures AllPassed(r) <==> PassCount(r) == |r.checks|
  {
    CountComplement(r.checks, Passed, NotPassed);
    CountZero(r.checks, NotPassed);
    CountAll(r.checks, Passed);
  }

  /** The summary opens with "[PASS] " exactly when every check passed, and
      with "[FAIL] " otherwise. */
  lemma SummaryStatus(r: ValidationReport)
    ensures AllPassed(r) <==> SummaryLine(r)[..7] == PassTag
    ensures !AllPassed(r) <==> SummaryLine(r)[..7] == FailTag
  {
    var head := if AllPassed(r) then PassTag else FailTag;
    var rest := IntText(PassCount(r)) + "/" + IntText(|r.checks|) + " checks passed";
    assert SummaryLine(r) == head + rest;
    assert SummaryLine(r)[..7] == head;
    assert PassTag[1] != FailTag[1];
  }

  // ---------------------------------------------------------------------
  // The checks
  // ---------------------------------------------------------------------

  /** A sampled Milvus row. */
  type Sample = Dict<string, Value>

  /** What the validator asks of the two services. */
  datatype Services = Services(
    documentCount: string -> Result<int, string>,                // Azure: get_document_count(index)
    queryCount: string -> Result<int, string>,                   // Milvus: query_count(collection)
    describedFields: string -> Result<nat, string>,              // Milvus: len(describe_collection(c).get("fields", []))
    sampleQuery: (string, int) -> Result<seq<Sample>, string>)   // Milvus: sample_query(collection, limit)

  const DocumentCountName := "document_count"
  const FieldCountName := "field_count"
  const SampleDataName := "sample_data"
  const FillRateName := "sample_data_fill_rate"
  const VectorDimPrefix := "vector_dim_"
  const NoKeyMessage := "no primary key: sample check skipped"
  const NoDataMessage := "no data in Milvus: sample check skipped"
  const SampleFailedPrefix := "sample data check failed: "

  function Abs(x: int): nat {
    if x < 0 then -x else x
  }

  /** `abs(a - m) / a * 100`, for a non-zero source count. */
  function DiffPct(a: int, m: int): real
    requires a != 0
  {
    (Abs(a - m) as real) / (a as real) * 100.0
  }

  /** `_check_document_count`, from the two services' answers. */
  function DocumentCountCheck(azure: Result<int, string>, milvus: Result<int, string>, tolerance: real): (c: ValidationCheck)
    ensures c.name == DocumentCountName
    ensures azure.Err? || milvus.Err? ==> !c.passed && c.expected == VNull && c.actual == VNull
    ensures azure.Ok? && milvus.Ok? ==> c.expected == VInt(azure.value) && c.actual == VInt(milvus.value)
    ensures azure.Ok? && milvus.Ok? && azure.value == 0 ==> c.passed
  {
    if azure.Err? then ValidationCheck(DocumentCountName, false, VNull, VNull, "document count check failed: " + azure.error)
    else if milvus.Err? then ValidationCheck(DocumentCountName, false, VNull, VNull, "document count check failed: " + milvus.error)
    else
      var a, m := azure.value, milvus.value;
      if a == 0 then ValidationCheck(DocumentCountName, true, VInt(a), VInt(m), "no documents on the Azure side")
      else
        var passed := DiffPct(a, m) <= tolerance;
        ValidationCheck(DocumentCountName, passed, VInt(a), VInt(m),
          if passed then "document counts match"
          else "document counts differ: Azure=" + IntText(a) + ", Milvus=" + IntText(m))
  }

  /** With a positive source count the check passes exactly when the
      difference, times 100, is within the tolerance times the source
      count. */
  lemma DocumentCountTolerance(a: int, m: int, tolerance: real)
    requires a > 0
    ensures DocumentCountCheck(Ok(a), Ok(m), tolerance).passed <==> (Abs(a - m) * 100) as real <= tolerance * (a as real)
  {
    ScaledQuotient(Abs(a - m) as real, a as real, tolerance);
  }

  /** `x / a * 100 <= t` is `x * 100 <= t * a` for a positive `a`. */
  lemma ScaledQuotient(x: real, a: real, t: real)
    requires a > 0.0
    ensures x / a * 100.0 <= t <==> x * 100.0 <= t * a
  {
    var q := x / a;
    assert q * a == x;
    assert (q * 100.0) * a == x * 100.0;
    ScaleByPositive(q * 100.0, t, a);
  }

  lemma ScaleByPositive(u: real, v: real, a: real)
    requires a > 0.0
    ensures u <= v <==> u * a <= v * a
  {
    if u <= v {
      assert (v - u) * a >= 0.0;
    } else {
      assert (u - v) * a > 0.0;
    }
  }

  /** Equal counts pass under any non-negative tolerance. */
  lemma EqualCountsPass(a: int, tolerance: real)
    requires tolerance >= 0.0
    ensures DocumentCountCheck(Ok(a), Ok(a), tolerance).passed
  {
    if a != 0 {
      assert DiffPct(a, a) == 0.0;
    }
  }

  /** A field the Milvus collection should hold: converted, with a target. */
  predicate HasTarget(fc: FieldConversion) {
    !fc.skipped && fc.milvusField.Some?
  }

  /** `_check_field_count`, from the described collection's field count. */
  function FieldCountCheck(conversion: SchemaConversionResult, described: Result<nat, string>): (c: ValidationCheck)
    ensures c.name == FieldCountName
    ensures c.expected == VInt(Count(conversion.fieldConversions, HasTarget))
    ensures described.Ok? ==>
      c.actual == VInt(described.value) && (c.passed <==> described.value >= Count(conversion.fieldConversions, HasTarget))
    ensures described.Err? ==> !c.passed && c.actual == VNull
  {
    var expected := Count(conversion.fieldConversions, HasTarget);
    match described
    case Err(e) => ValidationCheck(FieldCountName, false, VInt(expected), VNull, "field count check failed: " + e)
    case Ok(n) =>
      ValidationCheck(FieldCountName, n >= expected, VInt(expected), VInt(n),
        "fields: expected=" + IntText(expected) + ", actual=" + IntText(n))
  }

  /** The fields expected in Milvus are exactly the fields of the schema the
      converter builds. */
  lemma {:induction false} ExpectedAreSchemaFields(fcs: seq<FieldConversion>)
    ensures Count(fcs, HasTarget) == |SchemaFields(fcs)|
    decreases |fcs|
  {
    if fcs != [] {
      ExpectedAreSchemaFields(fcs[..|fcs| - 1]);
    }
  }

  /** A collection created from a conversion and described with exactly its
      schema's fields passes the field-count check. */
  lemma FreshCollectionFieldCount(o: Config.MigrationOptions, index: SourceIndex)
    ensures var r := Conversion(o, index);
      FieldCountCheck(r, Ok(|r.collectionSchema.fields|)).passed
  {
    ExpectedAreSchemaFields(Conversion(o, index).fieldConversions);
  }

  /** The first field conversion that is a primary key, as `next(...)` finds it. */
  function KeyConversion(fcs: seq<FieldConversion>): (r: Option<FieldConversion>)
    ensures r.None? <==> forall i :: 0 <= i < |fcs| ==> !fcs[i].isPrimaryKey
    ensures r.Some? ==> r.value.isPrimaryKey
    ensures r.Some? ==>
      exists i :: 0 <= i < |fcs| && fcs[i] == r.value && (forall j :: 0 <= j < i ==> !fcs[j].isPrimaryKey)
  {
    if fcs == [] then None
    else if fcs[0].isPrimaryKey then Some(fcs[0])
    else
      var r := KeyConversion(fcs[1..]);
      assert forall i :: 1 <= i < |fcs| ==> fcs[1..][i - 1] == fcs[i];
      r
  }

  /** A field checked in the samples: converted, scalar, with a target. */
  predicate Scalar(fc: FieldConversion) {
    !fc.skipped && !fc.mapping.isVector && fc.milvusField.Some?
  }

  /** The Milvus names of the scalar fields, in field order. */
  function ScalarNames(fcs: seq<FieldConversion>): (names: seq<string>)
    ensures |names| == Count(fcs, Scalar)
  {
    if fcs == [] then []
    else
      var fc := fcs[|fcs| - 1];
      ScalarNames(fcs[..|fcs| - 1]) + (if Scalar(fc) then [fc.milvusField.value.name] else [])
  }

  /** Over the first `n` names: how many occur in `sample`, and how many of
      those hold something other than None. */
  function FillIn(sample: Sample, names: seq<string>, n: nat): (t: (nat, nat))
    requires n <= |names|
  {
    if n == 0 then (0, 0)
    else
      var (checked, filled) := FillIn(sample, names, n - 1);
      var name := names[n - 1];
      if name in Keys(sample) then (checked + 1, if Get(sample, name).value != VNull then filled + 1 else filled)
      else (checked, filled)
  }

  /** The same over the first `m` samples, all names each. */
  function Fill(samples: seq<Sample>, names: seq<string>, m: nat): (t: (nat, nat))
    requires m <= |samples|
  {
    if m == 0 then (0, 0)
    else
      var (checked, filled) := Fill(samples, names, m - 1);
      var (c, f) := FillIn(samples[m - 1], names, |names|);
      (checked + c, filled + f)
  }

  /** A name is checked when the sample has it; a non-null value is only
      counted among checked ones, so it never outnumbers them. */
  lemma {:induction false} FillInBounded(sample: Sample, names: seq<string>, n: nat)
    requires n <= |names|
    ensures FillIn(sample, names, n).1 <= FillIn(sample, names, n).0 <= n
  {
    if n > 0 {
      FillInBounded(sample, names, n - 1);
    }
  }

  lemma {:induction false} FillBounded(samples: seq<Sample>, names: seq<string>, m: nat)
    requires m <= |samples|
    ensures Fill(samples, names, m).1 <= Fill(samples, names, m).0 <= m * |names|
  {
    if m > 0 {
      FillBounded(samples, names, m - 1);
      FillInBounded(samples[m - 1], names, |names|);
    }
  }

  /** The fill rate `filled / checked * 100`. */
  function FillRate(checked: nat, filled: nat): real
    requires checked > 0
  {
    (filled as real) / (checked as real) * 100.0
  }

  /** The fill-rate check passes exactly when more than half of the checked
      values are filled. */
  lemma FillRateRule(checked: nat, filled: nat)
    requires checked > 0
    ensures FillRate(checked, filled) > 50.0 <==> 2 * filled > checked
  {
    ScaledQuotient(filled as real, checked as real, 50.0);
  }

  /** The dimension of a vector field's target, when it has a truthy one. */
  function DimOf(fc: FieldConversion): Option<int> {
    if fc.mapping.isVector && fc.milvusField.Some? && fc.milvusField.value.dim.Some? && fc.milvusField.value.dim.value != 0
    then fc.milvusField.value.dim
    else None
  }

  predicate HasDim(fc: FieldConversion) {
    DimOf(fc).Some?
  }

  function DimCheck(name: string, dim: int): ValidationCheck {
    ValidationCheck(VectorDimPrefix + name, true, VInt(dim), VInt(dim),
      "vector field '" + name + "' dimension: " + IntText(dim))
  }

  /** The dimension checks of the first `n` field conversions. */
  function DimChecks(fcs: seq<FieldConversion>, n: nat): seq<ValidationCheck>
    requires n <= |fcs|
  {
    if n == 0 then []
    else
      var fc := fcs[n - 1];
      DimChecks(fcs, n - 1) + (if DimOf(fc).Some? then [DimCheck(fc.milvusField.value.name, DimOf(fc).value)] else [])
  }

  /** Every dimension check passes and names its field; there is one per
      vector field with a dimension. */
  lemma {:induction false} DimChecksPass(fcs: seq<FieldConversion>, n: nat)
    requires n <= |fcs|
    ensures |DimChecks(fcs, n)| == Count(fcs[..n], HasDim)
    ensures forall i :: 0 <= i < |DimChecks(fcs, n)| ==>
      DimChecks(fcs, n)[i].passed && VectorDimPrefix <= DimChecks(fcs, n)[i].name
  {
    if n > 0 {
      DimChecksPass(fcs, n - 1);
      CountSnoc(fcs, n - 1, HasDim);
    }
  }

  /** `_check_sample_data`, from the sample the service returns. */
  function SampleChecks(fcs: seq<FieldConversion>, sample: Result<seq<Sample>, string>): seq<ValidationCheck> {
    var key := KeyConversion(fcs);
    if key.None? || key.value.milvusField.None? then
      [ValidationCheck(SampleDataName, true, VNull, VNull, NoKeyMessage)]
    else if sample.Err? then
      [ValidationCheck(SampleDataName, false, VNull, VNull, SampleFailedPrefix + sample.error)]
    else if sample.value == [] then
      [ValidationCheck(SampleDataName, true, VNull, VNull, NoDataMessage)]
    else
      var names := ScalarNames(fcs);
      var (checked, filled) := Fill(sample.value, names, |sample.value|);
      (if checked > 0 then [FillRateCheck(checked, filled)] else []) + DimChecks(fcs, |fcs|)
  }

  function FillRateCheck(checked: nat, filled: nat): ValidationCheck
    requires checked > 0
  {
    ValidationCheck(FillRateName, FillRate(checked, filled) > 50.0, VStr(">50%"), VFloat(FillRate(checked, filled)),
      "sample fill rate: " + IntText(filled) + "/" + IntText(checked))
  }

  /** Without a usable primary key, or with an empty sample, the sample
      checks are a single passed "sample_data" check; a failing query is a
      single failed one. */
  lemma SampleSkips(fcs: seq<FieldConversion>, sample: Result<seq<Sample>, string>)
    ensures var key := KeyConversion(fcs);
      && (key.None? || key.value.milvusField.None? || (sample.Ok? && sample.value == []) ==>
            |SampleChecks(fcs, sample)| == 1 && SampleChecks(fcs, sample)[0].name == SampleDataName
            && SampleChecks(fcs, sample)[0].passed)
      && (key.Some? && key.value.milvusField.Some? && sample.Err? ==>
            SampleChecks(fcs, sample) == [ValidationCheck(SampleDataName, false, VNull, VNull,
                                                          SampleFailedPrefix + sample.error)])
  {
  }

  /** With data to check, the only check that can fail is the fill rate,
      which passes exactly when more than half the checked values are filled;
      the rate never exceeds 100%. */
  lemma SampleOutcome(fcs: seq<FieldConversion>, samples: seq<Sample>)
    requires KeyConversion(fcs).Some? && KeyConversion(fcs).value.milvusField.Some? && samples != []
    ensures var cs := SampleChecks(fcs, Ok(samples));
      var (checked, filled) := Fill(samples, ScalarNames(fcs), |samples|);
      && filled <= checked
      && (checked > 0 ==> |cs| > 0 && cs[0].name == FillRateName && (cs[0].passed <==> 2 * filled > checked)
                          && cs[1..] == DimChecks(fcs, |fcs|))
      && (checked == 0 ==> cs == DimChecks(fcs, |fcs|))
      && forall i :: 0 <= i < |cs| && cs[i].name != FillRateName ==> cs[i].passed
  {
    var (checked, filled) := Fill(samples, ScalarNames(fcs), |samples|);
    FillBounded(samples, ScalarNames(fcs), |samples|);
    DimChecksPass(fcs, |fcs|);
    if checked > 0 {
      FillRateRule(checked, filled);
    }
  }

  // ---------------------------------------------------------------------
  // The validator
  // ---------------------------------------------------------------------

  function Min(a: int, b: int): int {
    if a < b then a else b
  }

  /** The arguments `validate` uses when its caller leaves them out: a sample
      of 100 documents and a document count tolerance of 1 percent. */
  const DefaultSampleSize := 100
  const DefaultTolerancePct := 1.0

  /** `MigrationValidator`: the two services and the conversion are fixed. */
  class MigrationValidator {
    const services: Services
    const conversion: SchemaConversionResult

    constructor (services: Services, conversion: SchemaConversionResult)
      ensures this.services == services && this.conversion == conversion
    {
      this.services := services;
      this.conversion := conversion;
    }

    /** The checks `validate` reports: document count, field count, then the
        sample checks. */
    function Checks(sampleSize: int, tolerance: real): seq<ValidationCheck> {
      var collection := conversion.milvusCollectionName;
      [DocumentCountCheck(services.documentCount(conversion.azureIndexName), services.queryCount(collection), tolerance),
       FieldCountCheck(conversion, services.describedFields(collection))]
        + SampleChecks(conversion.fieldConversions, services.sampleQuery(collection, Min(sampleSize, 10)))
    }

    /** A report in which every check passed means both services answered,
        the document counts agree within the tolerance and Milvus describes
        at least the expected fields. */
    lemma PassedMeans(sampleSize: int, tolerance: real)
      ensures AllPassed(ValidationReport(Checks(sampleSize, tolerance))) ==>
        var a := services.documentCount(conversion.azureIndexName);
        var m := services.queryCount(conversion.milvusCollectionName);
        var d := services.describedFields(conversion.milvusCollectionName);
        && a.Ok? && m.Ok? && d.Ok?
        && (a.value > 0 ==> (Abs(a.value - m.value) * 100) as real <= tolerance * (a.value as real))
        && d.value >= Count(conversion.fieldConversions, HasTarget)
    {
      var a := services.documentCount(conversion.azureIndexName);
      var m := services.queryCount(conversion.milvusCollectionName);
      var d := services.describedFields(conversion.milvusCollectionName);
      var cs := Checks(sampleSize, tolerance);
      if AllPassed(ValidationReport(cs)) {
        assert cs[0] == DocumentCountCheck(a, m, tolerance) && cs[0].passed;
        assert cs[1] == FieldCountCheck(conversion, d) && cs[1].passed;
        if a.Ok? && m.Ok? && a.value > 0 {
          DocumentCountTolerance(a.value, m.value, tolerance);
        }
      }
    }

    /** The nested loop of `_check_sample_data`: how many scalar values the
        samples hold, and how many of them are not None. */
    method CountFilled(samples: seq<Sample>, names: seq<string>) returns (checked: nat, filled: nat)
      ensures (checked, filled) == Fill(samples, names, |samples|)
    {
      checked, filled := 0, 0;
      for i := 0 to |samples|
        invariant (checked, filled) == Fill(samples, names, i)
      {
        var sample := samples[i];
        ghost var before := (checked, filled);
        for j := 0 to |names|
          invariant (checked - before.0, filled - before.1) == FillIn(sample, names, j)
          invariant checked >= before.0 && filled >= before.1
        {
          var name := names[j];
          if name in Keys(sample) {
            checked := checked + 1;
            if Get(sample, name).value != VNull {
              filled := filled + 1;
            }
          }
        }
      }
    }

    /** The scalar fields' Milvus names, as the list comprehension builds them. */
    method CollectScalarNames(fcs: seq<FieldConversion>) returns (names: seq<string>)
      ensures names == ScalarNames(fcs)
    {
      names := [];
      for i := 0 to |fcs|
        invariant names == ScalarNames(fcs[..i])
      {
        var fc := fcs[i];
        assert fcs[..i + 1][..i] == fcs[..i];
        if !fc.skipped && !fc.mapping.isVector && fc.milvusField.Some? {
          names := names + [fc.milvusField.value.name];
        }
      }
      assert fcs[..|fcs|] == fcs;
    }

    /** The vector dimension loop of `_check_sample_data`. */
    method AppendDimChecks(checks: seq<ValidationCheck>) returns (checks': seq<ValidationCheck>)
      ensures checks' == checks + DimChecks(conversion.fieldConversions, |conversion.fieldConversions|)
    {
      var fcs := conversion.fieldConversions;
      checks' := checks;
      for i := 0 to |fcs|
        invariant checks' == checks + DimChecks(fcs, i)
      {
        var fc := fcs[i];
        if fc.mapping.isVector && fc.milvusField.Some? {
          var dim := fc.milvusField.value.dim;
          if dim.Some? && dim.value != 0 {
            checks' := checks' + [DimCheck(fc.milvusField.value.name, dim.value)];
          }
        }
      }
    }

    /** `_check_sample_data`. */
    method CheckSampleData(collection: string, sampleSize: int) returns (checks: seq<ValidationCheck>)
      ensures checks == SampleChecks(conversion.fieldConversions, services.sampleQuery(collection, Min(sampleSize, 10)))
    {
      var fcs := conversion.fieldConversions;
      var key := KeyConversion(fcs);
      if key.None? || key.value.milvusField.None? {
        checks := [ValidationCheck(SampleDataName, true, VNull, VNull, NoKeyMessage)];
      } else {
        var sample := services.sampleQuery(collection, Min(sampleSize, 10));
        if sample.Err? {
          checks := [ValidationCheck(SampleDataName, false, VNull, VNull, SampleFailedPrefix + sample.error)];
        } else if sample.value == [] {
          checks := [ValidationCheck(SampleDataName, true, VNull, VNull, NoDataMessage)];
        } else {
          var names := CollectScalarNames(fcs);
          var checked, filled := CountFilled(sample.value, names);
          checks := if checked > 0 then [FillRateCheck(checked, filled)] else [];
          checks := AppendDimChecks(checks);
        }
      }
    }

    /** `validate`: the document count check, the field count check, then
        the sample checks, in that order. */
    method Validate(sampleSize: int, tolerance: real) returns (report: ValidationReport)
      ensures report.checks == Checks(sampleSize, tolerance)
      ensures |report.checks| >= 2
      ensures report.checks[0].name == DocumentCountName && report.checks[1].name == FieldCountName
    {
      var collection := conversion.milvusCollectionName;
      var indexName := conversion.azureIndexName;
      report := ValidationReport([]);
      var countCheck := DocumentCountCheck(services.documentCount(indexName), services.queryCount(collection), tolerance);
      report := report.(checks := report.checks + [countCheck]);
      report := report.(checks := report.checks + [FieldCountCheck(conversion, services.describedFields(collection))]);
      var sampleChecks := CheckSampleData(collection, sampleSize);
      report := report.(checks := report.checks + sampleChecks);
    }
  }
}

/**
 * The request validation of the Flask prediction service (api/fuel_api.py):
 * `preprocess_input` checks ten required fields of the posted JSON object in
 * a fixed order, each first for presence and then for a numeric type, and
 * turns a valid object into the single row of ten numbers the model reads.
 */
module FuelApi {
  import opened Outcomes

  /** A value of a parsed JSON document, as Python sees it: `None`, `bool`,
      `int`, `float`, `str`, `list` or `dict`. */
  datatype Json =
    | JNull
    | JBool(b: bool)
    | JInt(i: int)
    | JFloat(f: real)
    | JString(s: string)
    | JArray(items: seq<Json>)
    | JObject(members: map<string, Json>)

  /** The fields every request must carry, in the order they are checked and
      laid out in the row. */
  const RequiredFields: seq<string> := [
    "engineType", "enginePower", "distance", "towingSpeed", "towSize",
    "windSpeed", "currentSpeed", "waveHeight", "windDirection", "maintenanceHistory"]

  /** How Python prints the accepted types `(int, float)`. */
  const ExpectedTypes: string := "(<class 'int'>, <class 'float'>)"

  /** `isinstance(value, (int, float))`; `bool` is a subclass of `int`, so a
      boolean passes. */
  predicate IsNumber(v: Json)
  {
    v.JBool? || v.JInt? || v.JFloat?
  }

  /** How Python prints the types `isinstance(value, (int, float))` accepts,
      `bool` included. */
  const NumberTypeNames: set<string> := {"<class 'bool'>", "<class 'int'>", "<class 'float'>"}

  /** `str(type(value))`: a `<class '...'>` string, which names one of the
      accepted types exactly when the value is a number. */
  function PythonTypeName(v: Json): (name: string)
    ensures |name| > 8 && name[..8] == "<class '"
    ensures IsNumber(v) <==> name in NumberTypeNames
  {
    match v
    case JNull => "<class 'NoneType'>"
    case JBool(_) => "<class 'bool'>"
    case JInt(_) => "<class 'int'>"
    case JFloat(_) => "<class 'float'>"
    case JString(_) => "<class 'str'>"
    case JArray(_) => "<class 'list'>"
    case JObject(_) => "<class 'dict'>"
  }

  /** `float(value)` on a number; `float(True)` is 1.0. */
  function ToFloat(v: Json): real
    requires IsNumber(v)
  {
    match v
    case JBool(b) => if b then 1.0 else 0.0
    case JInt(i) => i as real
    case JFloat(f) => f
  }

  /** The outcome of the field check: all fields passed, or the message of
      the first `ValueError` raised. */
  datatype Check = Passed | Rejected(message: string)

  /** The message for an absent field. */
  function MissingMessage(field: string): string
  {
    "Missing required field: " + field
  }

  /** The message for a present field that is not a number. */
  function TypeMessage(field: string, v: Json): string
  {
    "Invalid type for " + field + ": expected " + ExpectedTypes + ", got " + PythonTypeName(v)
  }

  /** A field is valid when it is present and numeric. */
  predicate FieldValid(data: map<string, Json>, field: string)
  {
    field in data && IsNumber(data[field])
  }

  /**
   * The `for` loop over the required fields: the first field that is absent
   * or not a number stops the check with its message; presence is checked
   * before type.
   */
  function CheckFields(data: map<string, Json>, fields: seq<string>): (c: Check)
    ensures c.Passed? <==> forall k :: 0 <= k < |fields| ==> FieldValid(data, fields[k])
    ensures c.Rejected? ==> exists k :: 0 <= k < |fields| && !FieldValid(data, fields[k])
  {
    if |fields| == 0 then Passed
    else if fields[0] !in data then Rejected(MissingMessage(fields[0]))
    else if !IsNumber(data[fields[0]]) then Rejected(TypeMessage(fields[0], data[fields[0]]))
    else
      var rest := CheckFields(data, fields[1..]);
      assert forall k :: 1 <= k < |fields| ==> fields[k] == fields[1..][k - 1];
      rest
  }

  /** The message every failure carries in front of the original one. */
  const FailurePrefix: string := "Input preprocessing failed: "

  /**
   * preprocess_input: a 1 by 10 row of the required fields as floats, in
   * field order, or the first validation error wrapped in the common prefix.
   */
  function PreprocessInput(data: map<string, Json>): (r: Result<seq<seq<real>>, string>)
    ensures r.Success? <==> forall k :: 0 <= k < |RequiredFields| ==> FieldValid(data, RequiredFields[k])
    ensures r.Success? ==>
      && |r.value| == 1 && |r.value[0]| == |RequiredFields|
      && forall k :: 0 <= k < |RequiredFields| ==> r.value[0][k] == ToFloat(data[RequiredFields[k]])
    ensures r.Failure? ==> |FailurePrefix| <= |r.error| && r.error[..|FailurePrefix|] == FailurePrefix
  {
    match CheckFields(data, RequiredFields)
    case Rejected(message) =>
      assert (FailurePrefix + message)[..|FailurePrefix|] == FailurePrefix;
      Failure(FailurePrefix + message)
    case Passed =>
      assert FieldValid(data, RequiredFields[0]) && FieldValid(data, RequiredFields[1]);
      assert FieldValid(data, RequiredFields[2]) && FieldValid(data, RequiredFields[3]);
      assert FieldValid(data, RequiredFields[4]) && FieldValid(data, RequiredFields[5]);
      assert FieldValid(data, RequiredFields[6]) && FieldValid(data, RequiredFields[7]);
      assert FieldValid(data, RequiredFields[8]) && FieldValid(data, RequiredFields[9]);
      Success([[
        ToFloat(data["engineType"]),
        ToFloat(data["enginePower"]),
        ToFloat(data["distance"]),
        ToFloat(data["towingSpeed"]),
        ToFloat(data["towSize"]),
        ToFloat(data["windSpeed"]),
        ToFloat(data["currentSpeed"]),
        ToFloat(data["waveHeight"]),
        ToFloat(data["windDirection"]),
        ToFloat(data["maintenanceHistory"])
      ]])
  }

  /** When every field before `fields[k]` is valid, the check's outcome is
      that of `fields[k]` onwards. */
  lemma {:induction false} CheckSkipsValidPrefix(data: map<string, Json>, fields: seq<string>, k: nat)
    requires k <= |fields|
    requires forall j :: 0 <= j < k ==> FieldValid(data, fields[j])
    ensures CheckFields(data, fields) == CheckFields(data, fields[k..])
  {
    if k > 0 {
      assert fields[1..][k - 1..] == fields[k..];
      assert forall j :: 0 <= j < k - 1 ==> fields[1..][j] == fields[j + 1];
      CheckSkipsValidPrefix(data, fields[1..], k - 1);
    }
  }

  /** The first field that is absent is reported as missing, whatever the
      fields after it hold. */
  lemma FirstMissingReported(data: map<string, Json>, k: nat)
    requires k < |RequiredFields|
    requires forall j :: 0 <= j < k ==> FieldValid(data, RequiredFields[j])
    requires RequiredFields[k] !in data
    ensures PreprocessInput(data) == Failure(FailurePrefix + MissingMessage(RequiredFields[k]))
  {
    CheckSkipsValidPrefix(data, RequiredFields, k);
    assert RequiredFields[k..][0] == RequiredFields[k];
  }

  /** A field that is present but not a number is reported with its Python
      type, even when a later field is missing. */
  lemma FirstBadTypeReported(data: map<string, Json>, k: nat)
    requires k < |RequiredFields|
    requires forall j :: 0 <= j < k ==> FieldValid(data, RequiredFields[j])
    requires RequiredFields[k] in data && !IsNumber(data[RequiredFields[k]])
    ensures PreprocessInput(data) == Failure(FailurePrefix + TypeMessage(RequiredFields[k], data[RequiredFields[k]]))
  {
    CheckSkipsValidPrefix(data, RequiredFields, k);
    assert RequiredFields[k..][0] == RequiredFields[k];
  }

  /** Only the required fields matter: two objects that agree on them give
      the same outcome, whatever else they carry. */
  lemma {:induction false} CheckReadsOnlyFields(a: map<string, Json>, b: map<string, Json>, fields: seq<string>)
    requires forall k :: 0 <= k < |fields| ==> (fields[k] in a <==> fields[k] in b)
    requires forall k :: 0 <= k < |fields| && fields[k] in a ==> a[fields[k]] == b[fields[k]]
    ensures CheckFields(a, fields) == CheckFields(b, fields)
  {
    if |fields| > 0 {
      assert forall k :: 0 <= k < |fields| - 1 ==> fields[1..][k] == fields[k + 1];
      CheckReadsOnlyFields(a, b, fields[1..]);
    }
  }

  /** Extra fields are ignored. */
  lemma ExtraFieldsIgnored(a: map<string, Json>, b: map<string, Json>)
    requires forall k :: 0 <= k < |RequiredFields| ==> (RequiredFields[k] in a <==> RequiredFields[k] in b)
    requires forall k :: 0 <= k < |RequiredFields| && RequiredFields[k] in a ==> a[RequiredFields[k]] == b[RequiredFields[k]]
    ensures PreprocessInput(a) == PreprocessInput(b)
  {
    CheckReadsOnlyFields(a, b, RequiredFields);
    if PreprocessInput(a).Success? {
      assert PreprocessInput(a).value[0] == PreprocessInput(b).value[0];
    }
  }

  /** Booleans pass the type check: an object whose ten fields are all `true`
      gives a row of ten ones. */
  lemma BooleansAccepted(data: map<string, Json>)
    requires forall k :: 0 <= k < |RequiredFields| ==> RequiredFields[k] in data && data[RequiredFields[k]] == JBool(true)
    ensures PreprocessInput(data) == Success([[1.0, 1.0, 1.0, 1.0, 1.0, 1.0, 1.0, 1.0, 1.0, 1.0]])
  {
    var r := PreprocessInput(data);
    assert forall k :: 0 <= k < |RequiredFields| ==> FieldValid(data, RequiredFields[k]);
    assert r.Success?;
    assert r.value[0] == [1.0, 1.0, 1.0, 1.0, 1.0, 1.0, 1.0, 1.0, 1.0, 1.0];
  }
}

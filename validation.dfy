/**
 * `validate_obj` and the two pydantic models it is given: `EmployeeCreate`,
 * where every declared field is a required string, and `EmployeeUpdate`,
 * where `id` is a required string and every other field an Optional string.
 */
module Validation {
  import opened Wrappers
  import opened Json

  /** Why pydantic refused a field. */
  datatype Violation = Missing | NotAString

  datatype FieldError = FieldError(loc: string, violation: Violation)

  /** The ValidationError raised by the model: the model's name and one entry per refused field. */
  datatype ValidationError = ValidationError(model: string, errors: seq<FieldError>)

  datatype Field = Field(name: string, optional: bool)

  datatype Schema = Schema(name: string, fields: seq<Field>)

  /** What `validate_obj` returns: True, or the error. */
  datatype Validity = Valid | Invalid(err: ValidationError)

  /** The fields both models declare, in declaration order (the names are the source's own). */
  const EmployeeFields: seq<string> := [
    "full_name", "home_phone", "cell_phone", "email_address",
    "social_security_number_or_government_id", "birth_date", "martial_status",
    "spouse_name", "spouse_employer", "spouse_work_phone"
  ]

  /** The named fields, all required or all Optional. */
  function Declare(names: seq<string>, optional: bool): seq<Field> {
    seq(|names|, i requires 0 <= i < |names| => Field(names[i], optional))
  }

  const EmployeeCreate: Schema := Schema("EmployeeCreate", Declare(EmployeeFields, false))

  const EmployeeUpdate: Schema := Schema("EmployeeUpdate", [Field("id", false)] + Declare(EmployeeFields, true))

  /**
   * Whether the model accepts the field's value: a required field must be a
   * string; an Optional one may also be null or absent.
   */
  predicate Accepts(f: Field, obj: Dict) {
    match Get(obj, f.name)
    case None => f.optional
    case Some(v) => v.JStr? || (f.optional && v.JNull?)
  }

  function Complaint(f: Field, obj: Dict): FieldError {
    FieldError(f.name, if Get(obj, f.name).None? then Missing else NotAString)
  }

  /** The errors reported for these fields: one per refused field, in declaration order. */
  function Errors(fields: seq<Field>, obj: Dict): (errs: seq<FieldError>)
    ensures errs == [] <==> forall i :: 0 <= i < |fields| ==> Accepts(fields[i], obj)
    ensures |errs| <= |fields|
    ensures forall i :: 0 <= i < |fields| && !Accepts(fields[i], obj) ==> Complaint(fields[i], obj) in errs
    ensures forall e :: e in errs ==> exists i :: 0 <= i < |fields| && !Accepts(fields[i], obj) && e == Complaint(fields[i], obj)
  {
    if fields == [] then []
    else
      var rest := Errors(fields[1..], obj);
      assert forall i :: 1 <= i < |fields| ==> fields[i] == fields[1..][i - 1];
      if Accepts(fields[0], obj) then rest else [Complaint(fields[0], obj)] + rest
  }

  /** validate_obj: Valid exactly when the model accepts every field it declares; fields it does not declare are ignored. */
  function ValidateObj(schema: Schema, obj: Dict): (r: Validity)
    ensures r.Valid? <==> forall i :: 0 <= i < |schema.fields| ==> Accepts(schema.fields[i], obj)
    ensures r.Invalid? ==> r.err.model == schema.name && r.err.errors != []
  {
    var errs := Errors(schema.fields, obj);
    if errs == [] then Valid else Invalid(ValidationError(schema.name, errs))
  }

  /** EmployeeCreate accepts an object exactly when every declared field is present as a string. */
  lemma CreateValidIff(obj: Dict)
    ensures ValidateObj(EmployeeCreate, obj).Valid?
        <==> forall i :: 0 <= i < |EmployeeFields| ==> Get(obj, EmployeeFields[i]).Some? && Get(obj, EmployeeFields[i]).value.JStr?
  {
    var fields := EmployeeCreate.fields;
    assert |fields| == |EmployeeFields|;
    assert forall i :: 0 <= i < |EmployeeFields| ==> fields[i] == Field(EmployeeFields[i], false);
    assert forall i :: 0 <= i < |EmployeeFields| ==>
      (Accepts(fields[i], obj) <==> Get(obj, EmployeeFields[i]).Some? && Get(obj, EmployeeFields[i]).value.JStr?);
  }

  /** A missing declared field makes EmployeeCreate refuse the object, naming that field. */
  lemma CreateRejectsMissing(obj: Dict, i: nat)
    requires i < |EmployeeFields| && Get(obj, EmployeeFields[i]).None?
    ensures ValidateObj(EmployeeCreate, obj).Invalid?
    ensures FieldError(EmployeeFields[i], Missing) in ValidateObj(EmployeeCreate, obj).err.errors
  {
    var f := EmployeeCreate.fields[i];
    assert f == Field(EmployeeFields[i], false);
    assert Complaint(f, obj) == FieldError(EmployeeFields[i], Missing);
  }

  /** Binding a key a model does not declare changes nothing in what it reports. */
  lemma {:induction false} ErrorsIgnoreUndeclared(fields: seq<Field>, obj: Dict, k: string, v: Value)
    requires forall i :: 0 <= i < |fields| ==> fields[i].name != k
    ensures Errors(fields, Set(obj, k, v)) == Errors(fields, obj)
  {
    if fields != [] {
      assert Get(Set(obj, k, v), fields[0].name) == Get(obj, fields[0].name);
      ErrorsIgnoreUndeclared(fields[1..], obj, k, v);
    }
  }

  /** EmployeeCreate ignores extra keys, `id` among them: setting one leaves the verdict unchanged. */
  lemma CreateIgnoresUndeclared(obj: Dict, k: string, v: Value)
    requires k !in EmployeeFields
    ensures ValidateObj(EmployeeCreate, Set(obj, k, v)) == ValidateObj(EmployeeCreate, obj)
  {
    var fields := EmployeeCreate.fields;
    assert forall i :: 0 <= i < |fields| ==> fields[i].name == EmployeeFields[i];
    ErrorsIgnoreUndeclared(fields, obj, k, v);
  }

  /** EmployeeUpdate accepts an object exactly when `id` is a string and every other declared field is absent, null or a string. */
  lemma UpdateValidIff(obj: Dict)
    ensures ValidateObj(EmployeeUpdate, obj).Valid?
        <==> && Get(obj, "id").Some? && Get(obj, "id").value.JStr?
             && forall i :: 0 <= i < |EmployeeFields| ==>
                  Get(obj, EmployeeFields[i]).None? || Get(obj, EmployeeFields[i]).value.JStr? || Get(obj, EmployeeFields[i]).value.JNull?
  {
    var fields := EmployeeUpdate.fields;
    assert fields[0] == Field("id", false);
    assert forall i :: 0 <= i < |EmployeeFields| ==> fields[i + 1] == Field(EmployeeFields[i], true);
    if ValidateObj(EmployeeUpdate, obj).Valid? {
      assert Accepts(fields[0], obj);
      forall i | 0 <= i < |EmployeeFields|
        ensures Get(obj, EmployeeFields[i]).None? || Get(obj, EmployeeFields[i]).value.JStr? || Get(obj, EmployeeFields[i]).value.JNull?
      {
        assert Accepts(fields[i + 1], obj);
      }
    }
  }
}

/**
 * Brivo custom fields (models/customField.go): a field is an ID and a value;
 * `GetFieldValue` finds the value of the first field with a given ID.
 */
module CustomFields {

  import opened Wrappers
  import opened GoStrings

  datatype CustomField = CustomField(id: int, value: string)

  /** `GenerateCustomField(id, value)`. */
  function GenerateCustomField(id: int, value: string): (f: CustomField)
    ensures f.id == id && f.value == value
  {
    CustomField(id, value)
  }

  /** The error `GetFieldValue` returns when no field has the ID. */
  function NotFoundText(fieldId: int): string {
    "Custom field " + Itoa(fieldId) + " not found"
  }

  /** Reference definition: the value of the first field whose ID is `fieldId`. */
  function FieldValue(fieldId: int, fields: seq<CustomField>): Result<string, string> {
    if fields == [] then Failure(NotFoundText(fieldId))
    else if fields[0].id == fieldId then Success(fields[0].value)
    else FieldValue(fieldId, fields[1..])
  }

  /** `i` is the first position holding a field with ID `fieldId`. */
  predicate FirstWithId(fieldId: int, fields: seq<CustomField>, i: int) {
    0 <= i < |fields| && fields[i].id == fieldId
    && forall j :: 0 <= j < i ==> fields[j].id != fieldId
  }

  /**
   * `FieldValue` finds the first match and ignores later duplicates, and it
   * fails, with "Custom field <id> not found", exactly when no field has the ID
   * (in particular on an empty list).
   */
  lemma {:induction false} FieldValueSpec(fieldId: int, fields: seq<CustomField>)
    ensures FieldValue(fieldId, fields).Success? <==> exists i :: 0 <= i < |fields| && fields[i].id == fieldId
    ensures FieldValue(fieldId, fields).Failure? ==> FieldValue(fieldId, fields).error == NotFoundText(fieldId)
    ensures FieldValue(fieldId, fields).Success? ==>
              exists i :: FirstWithId(fieldId, fields, i) && fields[i].value == FieldValue(fieldId, fields).value
  {
    if fields != [] && fields[0].id != fieldId {
      FieldValueSpec(fieldId, fields[1..]);
      if FieldValue(fieldId, fields).Success? {
        var i :| FirstWithId(fieldId, fields[1..], i) && fields[1..][i].value == FieldValue(fieldId, fields).value;
        assert FirstWithId(fieldId, fields, i + 1);
      } else {
        forall i | 0 <= i < |fields| ensures fields[i].id != fieldId {
          if i > 0 { assert fields[i] == fields[1..][i - 1]; }
        }
      }
    } else if fields != [] {
      assert FirstWithId(fieldId, fields, 0);
    }
  }

  /** `GetFieldValue(fieldID, customFields)`: a linear search that returns at the first match. */
  method GetFieldValue(fieldId: int, fields: seq<CustomField>) returns (r: Result<string, string>)
    ensures r == FieldValue(fieldId, fields)
    ensures r.Success? ==> exists i :: FirstWithId(fieldId, fields, i) && fields[i].value == r.value
    ensures r.Failure? ==> r.error == NotFoundText(fieldId)
                           && forall i :: 0 <= i < |fields| ==> fields[i].id != fieldId
  {
    FieldValueSpec(fieldId, fields);
    var k := 0;
    while k < |fields|
      invariant 0 <= k <= |fields|
      invariant FieldValue(fieldId, fields) == FieldValue(fieldId, fields[k..])
      invariant forall j :: 0 <= j < k ==> fields[j].id != fieldId
    {
      if fields[k].id == fieldId {
        return Success(fields[k].value);
      }
      assert fields[k..][1..] == fields[k + 1..];
      k := k + 1;
    }
    return Failure(NotFoundText(fieldId));
  }
}

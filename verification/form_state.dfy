/**
 * The initial state of a form session: the value map built from the schema
 * and the initial values, and the empty error and touched maps.
 */
module FormState {
  import opened FormTypes

  /** The value a field starts with: the caller's initial value when one is
      given for its id, otherwise the default the schema declares. */
  function InitialValue(field: FieldConfig, initialValues: map<string, Value>): Value {
    if field.id in initialValues then initialValues[field.id] else field.value
  }

  /** Field `i` is the last one in schema order with its id, so its write to
      the value map is the one that stays. */
  predicate LastWithId(fields: seq<FieldConfig>, i: int) {
    0 <= i < |fields| && forall j :: i < j < |fields| ==> fields[j].id != fields[i].id
  }

  /** `data` is the value map the schema and the initial values produce. */
  ghost predicate IsInitialData(data: map<string, Value>, fields: seq<FieldConfig>, initialValues: map<string, Value>) {
    && data.Keys == Ids(fields)
    && forall i :: LastWithId(fields, i) ==> data[fields[i].id] == InitialValue(fields[i], initialValues)
  }

  /** Fills the value map field by field, in schema order. The keys are
      exactly the schema's ids (extra initial values are not copied), an
      initial value takes precedence over the schema default, and with
      repeated ids the later field decides the entry. */
  method InitialData(fields: seq<FieldConfig>, initialValues: map<string, Value>) returns (data: map<string, Value>)
    ensures IsInitialData(data, fields, initialValues)
    ensures forall id :: id in data && id in initialValues ==> data[id] == initialValues[id]
  {
    data := map[];
    for n := 0 to |fields|
      invariant forall id :: id in data <==> exists i :: 0 <= i < n && fields[i].id == id
      invariant forall i :: 0 <= i < n && (forall j :: i < j < n ==> fields[j].id != fields[i].id) ==>
        data[fields[i].id] == InitialValue(fields[i], initialValues)
    {
      ghost var before := data;
      data := data[fields[n].id := InitialValue(fields[n], initialValues)];
      forall id ensures id in data <==> exists i :: 0 <= i < n + 1 && fields[i].id == id {
        if id in before {
          var i :| 0 <= i < n && fields[i].id == id;
        }
      }
      forall i | 0 <= i < n + 1 && (forall j :: i < j < n + 1 ==> fields[j].id != fields[i].id)
        ensures data[fields[i].id] == InitialValue(fields[i], initialValues)
      {
        if i < n {
          assert fields[n].id != fields[i].id;
        }
      }
    }
    assert data.Keys == Ids(fields) by {
      forall id | id in data ensures id in Ids(fields) {
        var i :| 0 <= i < |fields| && fields[i].id == id;
      }
    }
    forall id | id in data && id in initialValues ensures data[id] == initialValues[id] {
      var i := LastIndexOf(fields, id);
    }
  }

  /** The position of the last field with id `id`. */
  function LastIndexOf(fields: seq<FieldConfig>, id: string): (i: int)
    requires exists k :: 0 <= k < |fields| && fields[k].id == id
    ensures LastWithId(fields, i) && fields[i].id == id
  {
    if fields[|fields| - 1].id == id then |fields| - 1
    else
      assert exists k :: 0 <= k < |fields| - 1 && fields[k].id == id;
      LastIndexOf(fields[..|fields| - 1], id)
  }

  /** With distinct ids every field's own initial value is in the map. */
  lemma DistinctIdsInitialData(data: map<string, Value>, fields: seq<FieldConfig>, initialValues: map<string, Value>)
    requires IsInitialData(data, fields, initialValues)
    requires forall i, j :: 0 <= i < j < |fields| ==> fields[i].id != fields[j].id
    ensures forall i :: 0 <= i < |fields| ==> data[fields[i].id] == InitialValue(fields[i], initialValues)
  {
    forall i | 0 <= i < |fields| ensures data[fields[i].id] == InitialValue(fields[i], initialValues) {
      assert LastWithId(fields, i);
    }
  }
}

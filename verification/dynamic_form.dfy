/**
 * A form session: the value, error and touched maps and the submit message,
 * updated by the change, blur and submit handlers. Each handler runs as one
 * sequential update of the session's state.
 */
module Form {
  import opened Wrappers
  import opened FormTypes
  import opened Validator
  import FormState
  import FormField

  /** The kind of the message shown after a submit; `NoKind` is the empty type. */
  datatype MessageKind = NoKind | Success | Error

  datatype SubmitMessage = SubmitMessage(show: bool, kind: MessageKind, message: string)

  const Hidden := SubmitMessage(false, NoKind, "")
  const SuccessText := "Form submitted successfully! \U{2713}"
  const FailureText := "Please fill all required field"

  /** Every schema field has an entry in `data`. */
  predicate Covers(data: map<string, Value>, fields: seq<FieldConfig>) {
    forall i :: 0 <= i < |fields| ==> fields[i].id in data
  }

  /** Field `i` is the first one with id `id`. */
  predicate FirstWithId(fields: seq<FieldConfig>, i: int, id: string) {
    0 <= i < |fields| && fields[i].id == id && forall j :: 0 <= j < i ==> fields[j].id != id
  }

  /** The first field with id `id`, if any. */
  function FindField(fields: seq<FieldConfig>, id: string): (r: Option<FieldConfig>)
    ensures r.None? <==> forall i :: 0 <= i < |fields| ==> fields[i].id != id
    ensures r.Some? ==> r.value.id == id
    ensures r.Some? ==> exists i :: FirstWithId(fields, i, id) && fields[i] == r.value
  {
    if fields == [] then None
    else if fields[0].id == id then Some(fields[0])
    else
      var r := FindField(fields[1..], id);
      assert r.Some? ==> exists i :: FirstWithId(fields, i, id) && fields[i] == r.value by {
        if r.Some? {
          var i :| FirstWithId(fields[1..], i, id) && fields[1..][i] == r.value;
          assert fields[i + 1] == r.value;
          forall j | 0 < j < i + 1 ensures fields[j].id != id {
            assert fields[j] == fields[1..][j - 1];
          }
          assert FirstWithId(fields, i + 1, id);
        }
      }
      assert r.None? ==> forall i :: 0 <= i < |fields| ==> fields[i].id != id by {
        if r.None? {
          forall i | 0 < i < |fields| ensures fields[i].id != id {
            assert fields[i] == fields[1..][i - 1];
          }
        }
      }
      r
  }

  /** The value passes the field's validator. */
  predicate Passes(field: FieldConfig, value: Value, today: int, p: Parsers) {
    Collected(field, value, today, p) == []
  }

  /** The error entry a handler writes: `''` for a valid value, else the
      validator's message. */
  function ErrorEntry(field: FieldConfig, value: Value, today: int, p: Parsers): (e: string)
    ensures e == "" <==> Passes(field, value, today, p)
  {
    FirstMessage(Collected(field, value, today, p))
  }

  /** Every schema field passes with its stored value. */
  predicate AllPass(fields: seq<FieldConfig>, data: map<string, Value>, today: int, p: Parsers)
    requires Covers(data, fields)
  {
    forall i :: 0 <= i < |fields| ==> Passes(fields[i], data[fields[i].id], today, p)
  }

  /** The error entry of every schema field, from its stored value, in
      schema order. */
  function Entries(fields: seq<FieldConfig>, data: map<string, Value>, today: int, p: Parsers): (es: seq<string>)
    requires Covers(data, fields)
    ensures |es| == |fields|
  {
    seq(|fields|, j requires 0 <= j < |fields| && fields[j].id in data => ErrorEntry(fields[j], data[fields[j].id], today, p))
  }

  /** Entry `j` is field `j`'s error entry. */
  lemma EntryAt(fields: seq<FieldConfig>, data: map<string, Value>, today: int, p: Parsers, j: int)
    requires Covers(data, fields) && 0 <= j < |fields|
    ensures Entries(fields, data, today, p)[j] == ErrorEntry(fields[j], data[fields[j].id], today, p)
  {
  }

  /** The error map a full validation builds from the fields' entries: one
      entry per failing field (non-empty entry), written in schema order. */
  function ErrorsOf(fields: seq<FieldConfig>, es: seq<string>): map<string, string>
    requires |es| == |fields|
  {
    if fields == [] then map[]
    else
      var n := |fields| - 1;
      var m := ErrorsOf(fields[..n], es[..n]);
      if es[n] == "" then m else m[fields[n].id := es[n]]
  }

  /** The touched map after a full validation: every schema id, set. */
  function AllTouched(fields: seq<FieldConfig>): map<string, bool> {
    map id | id in Ids(fields) :: true
  }

  /** A map lookup, with an absent key read as `undefined`. */
  function Get<V>(m: map<string, V>, k: string): Option<V> {
    if k in m then Some(m[k]) else None
  }

  /** The entry is truthy: present and set to true. */
  predicate IsTouched(touched: map<string, bool>, id: string) {
    id in touched && touched[id]
  }

  // ------------------------------------------------ properties of ErrorsOf

  /** One more field extends the error map by its entry, if non-empty. */
  lemma ErrorsOfSnoc(fields: seq<FieldConfig>, es: seq<string>, n: int)
    requires |es| == |fields| && 0 <= n < |fields|
    ensures ErrorsOf(fields[..n + 1], es[..n + 1]) ==
      if es[n] == "" then ErrorsOf(fields[..n], es[..n]) else ErrorsOf(fields[..n], es[..n])[fields[n].id := es[n]]
  {
    assert fields[..n + 1][..n] == fields[..n] && es[..n + 1][..n] == es[..n];
  }

  /** An id has an error entry exactly when some field with that id fails. */
  lemma {:induction false} ErrorsOfKeys(fields: seq<FieldConfig>, es: seq<string>, id: string)
    requires |es| == |fields|
    ensures id in ErrorsOf(fields, es) <==> exists i :: 0 <= i < |fields| && fields[i].id == id && es[i] != ""
  {
    if fields != [] {
      var n := |fields| - 1;
      ErrorsOfKeys(fields[..n], es[..n], id);
      if id in ErrorsOf(fields[..n], es[..n]) {
        var i :| 0 <= i < n && fields[..n][i].id == id && es[..n][i] != "";
        assert fields[i] == fields[..n][i];
      }
      if exists i :: 0 <= i < |fields| && fields[i].id == id && es[i] != "" {
        var i :| 0 <= i < |fields| && fields[i].id == id && es[i] != "";
        if i < n {
          assert fields[..n][i] == fields[i] && es[..n][i] == es[i];
        }
      }
    }
  }

  /** The entry for an id holds the message of the last failing field with
      that id. */
  lemma {:induction false} ErrorsOfEntries(fields: seq<FieldConfig>, es: seq<string>, i: int)
    requires |es| == |fields|
    requires 0 <= i < |fields| && es[i] != ""
    requires forall j :: i < j < |fields| && fields[j].id == fields[i].id ==> es[j] == ""
    ensures fields[i].id in ErrorsOf(fields, es) && ErrorsOf(fields, es)[fields[i].id] == es[i]
  {
    var n := |fields| - 1;
    if i < n {
      assert fields[..n][i] == fields[i] && es[..n][i] == es[i];
      ErrorsOfEntries(fields[..n], es[..n], i);
    }
  }

  /** A full validation finds no error exactly when every entry is empty. */
  lemma ErrorsOfEmpty(fields: seq<FieldConfig>, es: seq<string>)
    requires |es| == |fields|
    ensures ErrorsOf(fields, es) == map[] <==> forall i :: 0 <= i < |es| ==> es[i] == ""
  {
    if ErrorsOf(fields, es) == map[] {
      forall i | 0 <= i < |es| ensures es[i] == "" {
        ErrorsOfKeys(fields, es, fields[i].id);
      }
    } else {
      var id :| id in ErrorsOf(fields, es);
      ErrorsOfKeys(fields, es, id);
    }
  }

  /** The position of the last failing field with id `id`, at or after `j`. */
  function LastFailing(fields: seq<FieldConfig>, es: seq<string>, id: string, j: int): (k: int)
    requires |es| == |fields|
    requires 0 <= j < |fields| && fields[j].id == id && es[j] != ""
    ensures j <= k < |fields| && fields[k].id == id && es[k] != ""
    ensures forall m :: k < m < |fields| && fields[m].id == id ==> es[m] == ""
    decreases |fields| - j
  {
    if exists m :: j < m < |fields| && fields[m].id == id && es[m] != "" then
      var m :| j < m < |fields| && fields[m].id == id && es[m] != "";
      LastFailing(fields, es, id, m)
    else j
  }

  /** After a full validation a field is shown failing exactly when some field
      with its id fails with its stored value. */
  lemma ShownFailingAfterValidation(fields: seq<FieldConfig>, data: map<string, Value>, today: int, p: Parsers, i: int)
    requires Covers(data, fields) && 0 <= i < |fields|
    ensures var id := fields[i].id;
      FormField.Render(fields[i], data[id], Get(ErrorsOf(fields, Entries(fields, data, today, p)), id), Get(AllTouched(fields), id)).hasError
      <==> exists j :: 0 <= j < |fields| && fields[j].id == id && !Passes(fields[j], data[id], today, p)
  {
    var id, es := fields[i].id, Entries(fields, data, today, p);
    ShownFailingByEntries(fields, es, data[id], i);
    forall j | 0 <= j < |fields| && fields[j].id == id
      ensures es[j] != "" <==> !Passes(fields[j], data[id], today, p)
    {
      EntryFails(fields, data, today, p, j);
    }
  }

  /** A full validation records no error exactly when every field passes. */
  lemma NoErrorsIffAllPass(fields: seq<FieldConfig>, data: map<string, Value>, today: int, p: Parsers)
    requires Covers(data, fields)
    ensures ErrorsOf(fields, Entries(fields, data, today, p)) == map[] <==> AllPass(fields, data, today, p)
  {
    ErrorsOfEmpty(fields, Entries(fields, data, today, p));
    AllPassIffEntries(fields, data, today, p);
  }

  /** Every field passes exactly when every entry is empty. */
  lemma AllPassIffEntries(fields: seq<FieldConfig>, data: map<string, Value>, today: int, p: Parsers)
    requires Covers(data, fields)
    ensures AllPass(fields, data, today, p) ==> forall i :: 0 <= i < |fields| ==> Entries(fields, data, today, p)[i] == ""
    ensures (forall i :: 0 <= i < |fields| ==> Entries(fields, data, today, p)[i] == "") ==> AllPass(fields, data, today, p)
  {
    var es := Entries(fields, data, today, p);
    forall i | 0 <= i < |fields|
      ensures es[i] == "" <==> Passes(fields[i], data[fields[i].id], today, p)
    {
      EntryFails(fields, data, today, p, i);
    }
  }

  /** A field's entry is non-empty exactly when it fails validation. */
  lemma EntryFails(fields: seq<FieldConfig>, data: map<string, Value>, today: int, p: Parsers, j: int)
    requires Covers(data, fields) && 0 <= j < |fields|
    ensures Entries(fields, data, today, p)[j] != "" <==> !Passes(fields[j], data[fields[j].id], today, p)
  {
    EntryAt(fields, data, today, p, j);
  }

  /** The same, stated over the fields' error entries. */
  lemma ShownFailingByEntries(fields: seq<FieldConfig>, es: seq<string>, value: Value, i: int)
    requires |es| == |fields| && 0 <= i < |fields|
    ensures var id := fields[i].id;
      FormField.Render(fields[i], value, Get(ErrorsOf(fields, es), id), Get(AllTouched(fields), id)).hasError
      <==> exists j :: 0 <= j < |fields| && fields[j].id == id && es[j] != ""
  {
    var id := fields[i].id;
    assert id in AllTouched(fields);
    ErrorsOfKeys(fields, es, id);
    if id in ErrorsOf(fields, es) {
      var j :| 0 <= j < |fields| && fields[j].id == id && es[j] != "";
      var k := LastFailing(fields, es, id, j);
      ErrorsOfEntries(fields, es, k);
    }
  }

  /** The first loop of a full validation: validates each field with its
      stored value and records the failures. */
  method CollectErrors(fields: seq<FieldConfig>, data: map<string, Value>, today: int, p: Parsers)
    returns (newErrors: map<string, string>, isValid: bool)
    requires Covers(data, fields)
    ensures newErrors == ErrorsOf(fields, Entries(fields, data, today, p))
    ensures isValid <==> newErrors == map[]
  {
    ghost var es := Entries(fields, data, today, p);
    newErrors := map[];
    isValid := true;
    for n := 0 to |fields|
      invariant newErrors == ErrorsOf(fields[..n], es[..n])
      invariant isValid <==> newErrors == map[]
    {
      var field := fields[n];
      var result := Validate(field, data[field.id], today, p);
      EntryAt(fields, data, today, p, n);
      ErrorsOfSnoc(fields, es, n);
      if !result.valid {
        newErrors := newErrors[field.id := result.message];
        isValid := false;
        assert field.id in newErrors;
      }
    }
    assert fields[..|fields|] == fields && es[..|es|] == es;
  }

  /** The second loop of a full validation: marks every schema id touched. */
  method TouchAll(fields: seq<FieldConfig>) returns (allTouched: map<string, bool>)
    ensures allTouched == AllTouched(fields)
  {
    allTouched := map[];
    for n := 0 to |fields|
      invariant forall id :: id in allTouched <==> exists i :: 0 <= i < n && fields[i].id == id
      invariant forall id :: id in allTouched ==> allTouched[id]
    {
      ghost var before := allTouched;
      allTouched := allTouched[fields[n].id := true];
      forall id ensures id in allTouched <==> exists i :: 0 <= i < n + 1 && fields[i].id == id {
        if id in before {
          var i :| 0 <= i < n && fields[i].id == id;
        }
      }
    }
    assert allTouched == AllTouched(fields) by {
      forall id | id in allTouched ensures id in Ids(fields) {
        var i :| 0 <= i < |fields| && fields[i].id == id;
      }
    }
  }

  // ------------------------------------------------------- the session

  class DynamicForm {
    const fields: seq<FieldConfig>
    const hasOnSubmit: bool
    var formData: map<string, Value>
    var errors: map<string, string>
    var touched: map<string, bool>
    var submitMessage: SubmitMessage

    /** Every schema field has a value. */
    ghost predicate Valid()
      reads this
    {
      Covers(formData, fields)
    }

    /** The state a full validation leaves behind. */
    ghost predicate Revalidated(today: int, p: Parsers)
      reads this
      requires Valid()
    {
      errors == ErrorsOf(fields, Entries(fields, formData, today, p)) && touched == AllTouched(fields)
    }

    /** Opens a session: values from the schema and the initial values,
        no errors, nothing touched, no message. */
    constructor(config: FormConfig, initialValues: map<string, Value>, hasOnSubmit: bool)
      ensures Valid()
      ensures fields == config.fields && this.hasOnSubmit == hasOnSubmit
      ensures FormState.IsInitialData(formData, fields, initialValues)
      ensures errors == map[] && touched == map[] && submitMessage == Hidden
    {
      fields := config.fields;
      this.hasOnSubmit := hasOnSubmit;
      var data := FormState.InitialData(config.fields, initialValues);
      formData := data;
      errors := map[];
      touched := map[];
      submitMessage := Hidden;
      assert forall i :: 0 <= i < |config.fields| ==> config.fields[i].id in Ids(config.fields);
    }

    /** Stores the new value; a touched field known to the schema is
        re-validated live with it, an untouched one keeps its error entry. */
    method HandleChange(fieldId: string, value: string, today: int, p: Parsers)
      requires Valid()
      modifies this
      ensures Valid()
      ensures formData == old(formData)[fieldId := Str(value)]
      ensures touched == old(touched) && submitMessage == old(submitMessage)
      ensures !IsTouched(old(touched), fieldId) ==> errors == old(errors)
      ensures IsTouched(old(touched), fieldId) ==>
        errors == match FindField(fields, fieldId)
          case None => old(errors)
          case Some(field) => old(errors)[fieldId := ErrorEntry(field, Str(value), today, p)]
    {
      formData := formData[fieldId := Str(value)];
      if fieldId in touched && touched[fieldId] {
        var field := FindField(fields, fieldId);
        if field.Some? {
          var result := Validate(field.value, Str(value), today, p);
          errors := errors[fieldId := if result.valid then "" else result.message];
        }
      }
    }

    /** Marks the field touched and, when the schema knows it, validates its
        stored value. */
    method HandleBlur(fieldId: string, today: int, p: Parsers)
      requires Valid()
      modifies this
      ensures Valid()
      ensures touched == old(touched)[fieldId := true]
      ensures formData == old(formData) && submitMessage == old(submitMessage)
      ensures errors == match FindField(fields, fieldId)
        case None => old(errors)
        case Some(field) => old(errors)[fieldId := ErrorEntry(field, formData[fieldId], today, p)]
    {
      touched := touched[fieldId := true];
      var field := FindField(fields, fieldId);
      if field.Some? {
        var result := Validate(field.value, formData[fieldId], today, p);
        errors := errors[fieldId := if result.valid then "" else result.message];
      }
    }

    /** Validates every field with its stored value, replaces the error map
        with the failures and the touched map with every schema id, and tells
        whether all fields passed. */
    method ValidateAll(today: int, p: Parsers) returns (ok: bool)
      requires Valid()
      modifies this
      ensures Valid() && Revalidated(today, p)
      ensures formData == old(formData) && submitMessage == old(submitMessage)
      ensures ok <==> AllPass(fields, formData, today, p)
    {
      var newErrors, isValid := CollectErrors(fields, formData, today, p);
      NoErrorsIffAllPass(fields, formData, today, p);
      errors := newErrors;
      var allTouched := TouchAll(fields);
      touched := allTouched;
      ok := isValid;
    }

    /** Validates everything; when all fields pass, shows the success message
        and hands the current values to the submit callback if there is one,
        otherwise shows the failure message. */
    method HandleSubmit(today: int, p: Parsers) returns (delivered: Option<map<string, Value>>)
      requires Valid()
      modifies this
      ensures Valid() && Revalidated(today, p)
      ensures formData == old(formData)
      ensures AllPass(fields, formData, today, p) ==> submitMessage == SubmitMessage(true, Success, SuccessText)
      ensures !AllPass(fields, formData, today, p) ==> submitMessage == SubmitMessage(true, Error, FailureText)
      ensures delivered.Some? <==> AllPass(fields, formData, today, p) && hasOnSubmit
      ensures delivered.Some? ==> delivered.value == formData
      ensures fields == [] ==> submitMessage.kind == Success
    {
      submitMessage := Hidden;
      var isValid := ValidateAll(today, p);
      if isValid {
        submitMessage := SubmitMessage(true, Success, SuccessText);
        delivered := if hasOnSubmit then Some(formData) else None;
      } else {
        submitMessage := SubmitMessage(true, Error, FailureText);
        delivered := None;
      }
    }
  }
}

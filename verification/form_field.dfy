/**
 * What one rendered field shows, derived from its schema entry, its value
 * and the session's error and touched entries. Rendering itself (markup,
 * CSS classes, event wiring) is not part of this model.
 */
module FormField {
  import opened Wrappers
  import opened FormTypes

  /** The two input widgets a field can be rendered with. */
  datatype Widget = SelectWidget | TextWidget

  /** The character counter: the value's length against the limit. */
  datatype CharCount = CharCount(length: nat, maxLength: int)

  /** Everything the field view decides. */
  datatype View = View(
    hasError: bool,
    isValid: bool,
    widget: Widget,
    requiredMarker: bool,
    charCount: Option<CharCount>,
    errorText: Option<string>)

  /** Touched and carrying a non-empty error; an absent entry is falsy. */
  predicate HasError(error: Option<string>, touched: Option<bool>) {
    touched == Some(true) && error.Some? && error.value != ""
  }

  /** Touched, no error (absent or empty), and a truthy value. */
  predicate IsValid(value: Value, error: Option<string>, touched: Option<bool>) {
    touched == Some(true) && (error.None? || error.value == "") && Truthy(value)
  }

  /** A `select` field gets the select widget; every other type, including
      one outside the declared ones, falls through to the text widget. */
  function WidgetFor(t: FieldType): (w: Widget)
    ensures w == SelectWidget <==> t == Select
    ensures t.Unknown? ==> w == TextWidget
  {
    match t
    case Select => SelectWidget
    case _ => TextWidget
  }

  /** The counter applies to text and email fields whose rule has a truthy
      `maxLength`. */
  predicate ShowsCharCount(field: FieldConfig) {
    (field.ftype == Text || field.ftype == Email)
    && field.validator.Some? && IsSetNumber(field.validator.value.maxLength)
  }

  /** The view of one field. */
  function Render(field: FieldConfig, value: Value, error: Option<string>, touched: Option<bool>): (v: View)
    ensures !(v.hasError && v.isValid)
    ensures v.hasError <==> touched == Some(true) && error.Some? && error.value != ""
    ensures v.isValid <==> touched == Some(true) && (error.None? || error.value == "") && Truthy(value)
    ensures v.errorText.Some? <==> v.hasError
    ensures v.errorText.Some? ==> v.errorText == error
    ensures v.widget == SelectWidget <==> field.ftype == Select
    ensures v.requiredMarker <==> field.validator.Some? && field.validator.value.required
    ensures v.charCount.Some? <==> ShowsCharCount(field)
    ensures v.charCount.Some? ==>
      v.charCount.value == CharCount(Utf16Length(ValueText(value)), field.validator.value.maxLength.value)
  {
    var hasError := HasError(error, touched);
    View(
      hasError,
      IsValid(value, error, touched),
      WidgetFor(field.ftype),
      field.validator.Some? && field.validator.value.required,
      if ShowsCharCount(field) then Some(CharCount(Utf16Length(ValueText(value)), field.validator.value.maxLength.value)) else None,
      if hasError then error else None)
  }

  /** A touched field with a falsy value (`''` or 0) and no error is shown
      neither as failing nor as valid. */
  lemma FalsyValueIsNotValid(field: FieldConfig, value: Value, error: Option<string>)
    requires !Truthy(value) && (error.None? || error.value == "")
    ensures var v := Render(field, value, error, Some(true)); !v.hasError && !v.isValid
  {
  }

  /** An untouched field shows neither state nor error text, whatever its
      error entry holds. */
  lemma UntouchedShowsNothing(field: FieldConfig, value: Value, error: Option<string>, touched: Option<bool>)
    requires touched != Some(true)
    ensures var v := Render(field, value, error, touched); !v.hasError && !v.isValid && v.errorText.None?
  {
  }
}

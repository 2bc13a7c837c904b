/**
 * The form schema: field types, validation rules, field configurations and
 * the values a form holds. Optional schema entries are `Option`s; JavaScript
 * truthiness of the values the engine tests is written out explicitly.
 */
module FormTypes {
  import opened Wrappers

  /** A field's declared type. The schema is read from JSON and cast, so a
      type outside the five declared ones can reach the renderer. */
  datatype FieldType = Text | Email | Number | Select | Date | Unknown(name: UndeclaredType)

  /** A type name other than the five declared ones. */
  type UndeclaredType = s: string | s != "text" && s != "email" && s != "number" && s != "select" && s != "date"
    witness "file"

  /** The per-field rule set; every entry is independently optional. An absent
      `required` or `mustBeTrue` reads as false. */
  datatype ValidationRule = ValidationRule(
    required: bool,
    minLength: Option<int>,
    maxLength: Option<int>,
    min: Option<int>,
    max: Option<int>,
    pattern: Option<string>,
    mustBeTrue: bool,
    minDate: Option<string>,
    maxDate: Option<string>,
    notBefore: Option<string>,
    notAfter: Option<string>)

  /** A rule with every entry absent. */
  const NoRule := ValidationRule(false, None, None, None, None, None, false, None, None, None, None)

  datatype SelectOption = SelectOption(optionLabel: string, value: string)

  /** One field of the schema; `validator` stands for `metadata?.validator`. */
  datatype FieldConfig = FieldConfig(
    id: string,
    fieldLabel: string,
    ftype: FieldType,
    placeholder: Option<string>,
    value: Value,
    options: Option<seq<SelectOption>>,
    validator: Option<ValidationRule>)

  datatype FormConfig = FormConfig(id: string, formType: string, fields: seq<FieldConfig>)

  /** A form value: the source's `string | number`. Numbers are integers here. */
  datatype Value = Str(s: string) | Num(n: int)

  datatype ValidationResult = ValidationResult(valid: bool, message: string)

  /** JavaScript truthiness of a form value: `''` and `0` are falsy. */
  predicate Truthy(v: Value) {
    match v
    case Str(s) => s != ""
    case Num(n) => n != 0
  }

  /** Truthiness of an optional numeric rule entry: absent and 0 are falsy. */
  predicate IsSetNumber(o: Option<int>) {
    o.Some? && o.value != 0
  }

  /** Truthiness of an optional string rule entry: absent and `''` are falsy. */
  predicate IsSetString(o: Option<string>) {
    o.Some? && o.value != ""
  }

  /** The ids the schema declares. */
  function Ids(fields: seq<FieldConfig>): set<string> {
    set i | 0 <= i < |fields| :: fields[i].id
  }

  /** `String(n)` for an integer: decimal digits, a leading `-` when negative. */
  function IntText(n: int): (s: string)
    ensures |s| > 0
    ensures n < 0 <==> s[0] == '-'
    ensures IntValue(s) == n
    ensures n != 0 ==> s[if n < 0 then 1 else 0] != '0'
  {
    if n < 0 then
      var t := NatText(-n);
      assert ("-" + t)[1..] == t;
      "-" + t
    else NatText(n)
  }

  /** Decimal digits without a leading zero, whose value is `n`. */
  function NatText(n: nat): (s: string)
    ensures |s| > 0
    ensures forall k :: 0 <= k < |s| ==> '0' <= s[k] <= '9'
    ensures DecimalValue(s) == n
    ensures n > 0 ==> s[0] != '0'
  {
    if n < 10 then [Digit(n)]
    else
      var front := NatText(n / 10);
      var s := front + [Digit(n % 10)];
      assert s[..|s| - 1] == front;
      s
  }

  function Digit(d: nat): (c: char)
    requires d < 10
    ensures '0' <= c <= '9' && c as int - '0' as int == d
  {
    ('0' as int + d) as char
  }

  /** The number a string of decimal digits denotes. */
  function DecimalValue(s: string): int {
    if s == [] then 0 else 10 * DecimalValue(s[..|s| - 1]) + (s[|s| - 1] as int - '0' as int)
  }

  /** The number a decimal text with an optional leading `-` denotes. */
  function IntValue(s: string): int {
    if s != [] && s[0] == '-' then -DecimalValue(s[1..]) else DecimalValue(s)
  }

  /** `s.length`: JavaScript counts UTF-16 code units, so a character beyond
      the Basic Multilingual Plane counts twice. */
  function Utf16Length(s: string): (n: nat)
    ensures |s| <= n <= 2 * |s|
    ensures (forall k :: 0 <= k < |s| ==> s[k] <= '\U{FFFF}') ==> n == |s|
    ensures |s| == 1 ==> n == (if s[0] <= '\U{FFFF}' then 1 else 2)
  {
    if s == [] then 0 else Utf16Length(s[..|s| - 1]) + (if s[|s| - 1] <= '\U{FFFF}' then 1 else 2)
  }

  /** The code units of a concatenation are those of its parts; with the
      one-character case above this fixes the count of every string. */
  lemma {:induction false} Utf16LengthAppend(a: string, b: string)
    ensures Utf16Length(a + b) == Utf16Length(a) + Utf16Length(b)
    decreases |b|
  {
    if b != [] {
      var c := b[..|b| - 1];
      assert (a + b)[..|a + b| - 1] == a + c;
      assert b[..|b| - 1] == c;
      Utf16LengthAppend(a, c);
    } else {
      assert a + b == a;
    }
  }

  /** `String(value)`, whose length the character counter shows. */
  function ValueText(v: Value): string {
    match v
    case Str(s) => s
    case Num(n) => IntText(n)
  }
}

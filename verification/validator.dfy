/**
 * The field validator. `Collected` is the list of failures the validator
 * gathers for one field and one value, in the fixed order of its checks;
 * `Validate` builds that list step by step and surfaces only the first
 * message. The clock and the parsers the validator relies on are inputs:
 * `today` is the current day number and `Parsers` bundles `Number(...)`,
 * date parsing and `RegExp.test`.
 */
module Validator {
  import opened Wrappers
  import opened FormTypes

  /** The foreign parsers, as total functions. A date is a day number, already
      normalised to local midnight. */
  datatype Parsers = Parsers(
    number: string -> Option<int>,      // Number(s), None when it is NaN
    date: string -> Option<int>,        // new Date(s), None when it is invalid
    timestamp: int -> Option<int>,      // new Date(n) for a numeric value
    matches: (string, string) -> bool)  // new RegExp(pattern).test(s)

  /** One failed check; every failure carries the fieldLabel of its field. */
  datatype Failure =
    | Required(fieldLabel: string)
    | TooShort(fieldLabel: string, minLength: int)
    | TooLong(fieldLabel: string, maxLength: int)
    | BadPattern(fieldLabel: string)
    | BelowMin(fieldLabel: string, min: int)
    | AboveMax(fieldLabel: string, max: int)
    | InvalidDate(fieldLabel: string)
    | BeforeToday(fieldLabel: string)
    | AfterToday(fieldLabel: string)
    | BeforeMinDate(fieldLabel: string, bound: string)
    | AfterMaxDate(fieldLabel: string, bound: string)

  /** The message the validator pushes for a failure. */
  function Text(f: Failure): (m: string)
    ensures |m| > |f.fieldLabel| && m[..|f.fieldLabel|] == f.fieldLabel
  {
    var suffix :=
      match f
      case Required(_) => " is required"
      case TooShort(_, k) => " must be at least " + IntText(k) + " characters"
      case TooLong(_, k) => " must not exceed " + IntText(k) + " characters"
      case BadPattern(_) => " format is invalid"
      case BelowMin(_, m) => " must be at least " + IntText(m)
      case AboveMax(_, m) => " must not exceed " + IntText(m)
      case InvalidDate(_) => " has an invalid date format"
      case BeforeToday(_) => " cannot be before today"
      case AfterToday(_) => " cannot be after today"
      case BeforeMinDate(_, b) => " must be on or after " + b
      case AfterMaxDate(_, b) => " must be on or before " + b;
    assert (f.fieldLabel + suffix)[..|f.fieldLabel|] == f.fieldLabel;
    f.fieldLabel + suffix
  }

  /** The message surfaced for a list of failures: the first one, or `''`. */
  function FirstMessage(fs: seq<Failure>): (m: string)
    ensures m == "" <==> fs == []
    ensures fs != [] ==> |m| > |fs[0].fieldLabel| && m[..|fs[0].fieldLabel|] == fs[0].fieldLabel
  {
    if fs == [] then "" else Text(fs[0])
  }

  // ---------------------------------------------------------------- trimming

  /** The characters `String.prototype.trim` removes: white space and line
      terminators. */
  predicate IsWhitespace(c: char) {
    || c == '\t' || c == '\n' || c == '\U{000B}' || c == '\U{000C}' || c == '\r'
    || c == ' ' || c == '\U{00A0}' || c == '\U{1680}'
    || ('\U{2000}' <= c <= '\U{200A}')
    || c == '\U{2028}' || c == '\U{2029}' || c == '\U{202F}' || c == '\U{205F}'
    || c == '\U{3000}' || c == '\U{FEFF}'
  }

  /** `s` without its leading white space. */
  function TrimStart(s: string): string {
    if s != [] && IsWhitespace(s[0]) then TrimStart(s[1..]) else s
  }

  /** `s` without its trailing white space. */
  function TrimEnd(s: string): string {
    if s != [] && IsWhitespace(s[|s| - 1]) then TrimEnd(s[..|s| - 1]) else s
  }

  /** `s.trim()`. */
  function Trim(s: string): string {
    TrimEnd(TrimStart(s))
  }

  lemma {:induction false} TrimStartIsSuffix(s: string)
    ensures var r := TrimStart(s);
      && |r| <= |s| && r == s[|s| - |r|..]
      && (forall k :: 0 <= k < |s| - |r| ==> IsWhitespace(s[k]))
      && (r != [] ==> !IsWhitespace(r[0]))
  {
    if s != [] && IsWhitespace(s[0]) {
      var t := s[1..];
      TrimStartIsSuffix(t);
      var r := TrimStart(t);
      assert TrimStart(s) == r;
      assert t[|t| - |r|..] == s[|s| - |r|..];
      forall k | 0 <= k < |s| - |r| ensures IsWhitespace(s[k]) {
        if k > 0 {
          assert s[k] == t[k - 1];
        }
      }
    }
  }

  lemma {:induction false} TrimEndIsPrefix(s: string)
    ensures var r := TrimEnd(s);
      && |r| <= |s| && r == s[..|r|]
      && (forall k :: |r| <= k < |s| ==> IsWhitespace(s[k]))
      && (r != [] ==> !IsWhitespace(r[|r| - 1]))
  {
    if s != [] && IsWhitespace(s[|s| - 1]) {
      var t := s[..|s| - 1];
      TrimEndIsPrefix(t);
      var r := TrimEnd(t);
      assert TrimEnd(s) == r;
      assert t[..|r|] == s[..|r|];
      forall k | |r| <= k < |s| ensures IsWhitespace(s[k]) {
        if k < |s| - 1 {
          assert s[k] == t[k];
        }
      }
    }
  }

  /** `s.trim()` is the infix of `s` left once the white space at both ends is
      cut off: everything cut is white space, and what is left neither starts
      nor ends with white space. */
  lemma TrimIsInfix(s: string)
    ensures var i, r := |s| - |TrimStart(s)|, Trim(s);
      && 0 <= i && i + |r| <= |s| && r == s[i..i + |r|]
      && (forall k :: 0 <= k < i || i + |r| <= k < |s| ==> IsWhitespace(s[k]))
      && (r != [] ==> !IsWhitespace(r[0]) && !IsWhitespace(r[|r| - 1]))
  {
    var t := TrimStart(s);
    TrimStartIsSuffix(s);
    TrimEndIsPrefix(t);
    var i, r := |s| - |t|, Trim(s);
    assert r == t[..|r|];
    forall k | i + |r| <= k < |s| ensures IsWhitespace(s[k]) {
      assert s[k] == t[k - i];
    }
  }

  /** A string trims to `''` exactly when it is all white space. */
  lemma TrimEmptyIffBlank(s: string)
    ensures Trim(s) == [] <==> forall k :: 0 <= k < |s| ==> IsWhitespace(s[k])
  {
    TrimIsInfix(s);
    var t := TrimStart(s);
    TrimStartIsSuffix(s);
    TrimEndIsPrefix(t);
    if t != [] {
      assert t[0] == s[|s| - |t|];
    }
  }

  // ----------------------------------------------------------- the checks

  /** Every failure in `fs` names the field labelled `fieldLabel`. */
  predicate AllNamed(fs: seq<Failure>, fieldLabel: string) {
    forall k :: 0 <= k < |fs| ==> fs[k].fieldLabel == fieldLabel
  }

  /** The failures that come from the date checks. */
  predicate IsDateFailure(f: Failure) {
    f.InvalidDate? || f.BeforeToday? || f.AfterToday? || f.BeforeMinDate? || f.AfterMaxDate?
  }

  /** The value fails `required`: it is falsy or a blank string. */
  predicate Blank(v: Value) {
    !Truthy(v) || (v.Str? && Trim(v.s) == "")
  }

  /** `Number(value)` for a numeric value or a string: a number is itself,
      a string is whatever the number parser makes of it. */
  function NumberOf(v: Value, p: Parsers): (r: Option<int>)
    ensures v.Num? ==> r == Some(v.n)
    ensures v.Str? ==> r == p.number(v.s)
  {
    match v
    case Str(s) => p.number(s)
    case Num(n) => Some(n)
  }

  /** `parseDate(dateStr)`: the empty string is no date; any other string is
      a date exactly when the date parser accepts it. */
  function ParseDate(s: string, p: Parsers): (r: Option<int>)
    ensures r.Some? ==> s != ""
    ensures s != "" ==> r == p.date(s)
  {
    if s == "" then None else p.date(s)
  }

  /** `parseDate(value as string)`; a numeric value reaches `new Date` as a
      number. A falsy value (`''` or 0) is never a date. */
  function DateOf(v: Value, p: Parsers): (r: Option<int>)
    ensures !Truthy(v) ==> r.None?
    ensures v.Str? ==> r == ParseDate(v.s, p)
    ensures Truthy(v) && v.Num? ==> r == p.timestamp(v.n)
  {
    match v
    case Str(s) => ParseDate(s, p)
    case Num(n) => if n == 0 then None else p.timestamp(n)
  }

  /** A `minDate`/`maxDate` bound: `'today'` is the current day, anything else
      is parsed as a literal date, and `''` is no bound. */
  function ResolveBound(bound: string, today: int, p: Parsers): (r: Option<int>)
    ensures bound == "today" ==> r == Some(today)
    ensures bound != "today" ==> r == ParseDate(bound, p)
    ensures bound == "" ==> r.None?
  {
    if bound == "today" then Some(today) else ParseDate(bound, p)
  }

  function RequiredCheck(fieldLabel: string, rule: ValidationRule, v: Value): (fs: seq<Failure>)
    ensures AllNamed(fs, fieldLabel)
    ensures forall f :: f in fs ==> f.Required?
  {
    if rule.required && Blank(v) then [Required(fieldLabel)] else []
  }

  /** Length and pattern checks; they run only on a non-empty string. Lengths
      are those of the trimmed string in UTF-16 code units, the pattern sees
      the raw string. */
  function StringChecks(fieldLabel: string, rule: ValidationRule, v: Value, p: Parsers): (fs: seq<Failure>)
    ensures AllNamed(fs, fieldLabel)
    ensures forall f :: f in fs ==> f.TooShort? || f.TooLong? || f.BadPattern?
  {
    if v.Str? && v.s != "" then
      var n := Utf16Length(Trim(v.s));
      (if IsSetNumber(rule.minLength) && n < rule.minLength.value
       then [TooShort(fieldLabel, rule.minLength.value)] else [])
      + (if IsSetNumber(rule.maxLength) && n > rule.maxLength.value
         then [TooLong(fieldLabel, rule.maxLength.value)] else [])
      + (if IsSetString(rule.pattern) && !p.matches(rule.pattern.value, v.s)
         then [BadPattern(fieldLabel)] else [])
    else []
  }

  /** Inclusive numeric bounds; a value that is not a number skips them. */
  function NumberChecks(field: FieldConfig, rule: ValidationRule, v: Value, p: Parsers): (fs: seq<Failure>)
    ensures AllNamed(fs, field.fieldLabel)
    ensures forall f :: f in fs ==> f.BelowMin? || f.AboveMax?
  {
    if field.ftype == Number && v != Str("") then
      match NumberOf(v, p)
      case None => []
      case Some(n) =>
        (if rule.min.Some? && n < rule.min.value then [BelowMin(field.fieldLabel, rule.min.value)] else [])
        + (if rule.max.Some? && n > rule.max.value then [AboveMax(field.fieldLabel, rule.max.value)] else [])
    else []
  }

  /** Date checks: an unparsable date fails on its own and stops the date
      checks; otherwise the day is compared with today and the bounds. */
  function DateChecks(field: FieldConfig, rule: ValidationRule, v: Value, today: int, p: Parsers): (fs: seq<Failure>)
    ensures AllNamed(fs, field.fieldLabel)
    ensures forall f :: f in fs ==> IsDateFailure(f)
  {
    if field.ftype == Date && Truthy(v) then
      match DateOf(v, p)
      case None => [InvalidDate(field.fieldLabel)]
      case Some(d) => BoundChecks(field.fieldLabel, rule, d, today, p)
    else []
  }

  function BoundChecks(fieldLabel: string, rule: ValidationRule, d: int, today: int, p: Parsers): (fs: seq<Failure>)
    ensures AllNamed(fs, fieldLabel)
    ensures forall f :: f in fs ==> f.BeforeToday? || f.AfterToday? || f.BeforeMinDate? || f.AfterMaxDate?
  {
    (if rule.notBefore == Some("today") && d < today then [BeforeToday(fieldLabel)] else [])
    + (if rule.notAfter == Some("today") && d > today then [AfterToday(fieldLabel)] else [])
    + MinDateCheck(fieldLabel, rule, d, today, p)
    + MaxDateCheck(fieldLabel, rule, d, today, p)
  }

  function MinDateCheck(fieldLabel: string, rule: ValidationRule, d: int, today: int, p: Parsers): (fs: seq<Failure>)
    ensures AllNamed(fs, fieldLabel)
    ensures forall f :: f in fs ==> f.BeforeMinDate?
  {
    if IsSetString(rule.minDate) then
      match ResolveBound(rule.minDate.value, today, p)
      case Some(b) => if d < b then [BeforeMinDate(fieldLabel, rule.minDate.value)] else []
      case None => []
    else []
  }

  function MaxDateCheck(fieldLabel: string, rule: ValidationRule, d: int, today: int, p: Parsers): (fs: seq<Failure>)
    ensures AllNamed(fs, fieldLabel)
    ensures forall f :: f in fs ==> f.AfterMaxDate?
  {
    if IsSetString(rule.maxDate) then
      match ResolveBound(rule.maxDate.value, today, p)
      case Some(b) => if d > b then [AfterMaxDate(fieldLabel, rule.maxDate.value)] else []
      case None => []
    else []
  }

  /** Every failure the validator collects for `value`, in check order. A field
      without a rule collects nothing, and every failure names the field. */
  function Collected(field: FieldConfig, value: Value, today: int, p: Parsers): (fs: seq<Failure>)
    ensures field.validator.None? ==> fs == []
    ensures AllNamed(fs, field.fieldLabel)
  {
    match field.validator
    case None => []
    case Some(rule) =>
      RequiredCheck(field.fieldLabel, rule, value)
      + StringChecks(field.fieldLabel, rule, value, p)
      + NumberChecks(field, rule, value, p)
      + DateChecks(field, rule, value, today, p)
  }

  // ------------------------------------------------------- the validator

  /** The validator: pushes one failure per failed check, in order, and
      reports validity and the message of the first failure, which names the
      field. */
  method Validate(field: FieldConfig, value: Value, today: int, p: Parsers) returns (r: ValidationResult)
    ensures r.valid <==> Collected(field, value, today, p) == []
    ensures r.message == FirstMessage(Collected(field, value, today, p))
    ensures !r.valid ==> |r.message| > |field.fieldLabel| && r.message[..|field.fieldLabel|] == field.fieldLabel
  {
    var validator := field.validator;
    if validator.None? {
      return ValidationResult(true, "");
    }
    var rule := validator.value;
    ghost var R, S := RequiredCheck(field.fieldLabel, rule, value), StringChecks(field.fieldLabel, rule, value, p);
    ghost var N, D := NumberChecks(field, rule, value, p), DateChecks(field, rule, value, today, p);
    assert Collected(field, value, today, p) == R + S + N + D;

    var errorMessages: seq<Failure> := [];
    errorMessages := PushRequired(errorMessages, field.fieldLabel, rule, value);
    assert errorMessages == R;
    if Truthy(value) && value.Str? {
      errorMessages := PushLengthAndPattern(errorMessages, field.fieldLabel, rule, value.s, p);
    } else {
      assert S == [];
    }
    assert errorMessages == R + S;
    if field.ftype == Number && value != Str("") {
      errorMessages := PushNumberBounds(errorMessages, field, rule, value, p);
    } else {
      assert N == [];
    }
    assert errorMessages == R + S + N;
    if field.ftype == Date && Truthy(value) {
      errorMessages := PushDateChecks(errorMessages, field, rule, value, today, p);
    } else {
      assert D == [];
    }
    assert errorMessages == R + S + N + D;
    r := ValidationResult(|errorMessages| == 0, FirstMessage(errorMessages));
  }

  method PushRequired(errorMessages: seq<Failure>, fieldLabel: string, rule: ValidationRule, value: Value)
    returns (ms: seq<Failure>)
    ensures ms == errorMessages + RequiredCheck(fieldLabel, rule, value)
  {
    ms := errorMessages;
    if rule.required {
      if !Truthy(value) || (value.Str? && Trim(value.s) == "") {
        ms := ms + [Required(fieldLabel)];
      }
    }
  }

  method PushLengthAndPattern(errorMessages: seq<Failure>, fieldLabel: string, rule: ValidationRule, value: string, p: Parsers)
    returns (ms: seq<Failure>)
    requires value != ""
    ensures ms == errorMessages + StringChecks(fieldLabel, rule, Str(value), p)
  {
    ms := errorMessages;
    var length := Utf16Length(Trim(value));
    if IsSetNumber(rule.minLength) && length < rule.minLength.value {
      ms := ms + [TooShort(fieldLabel, rule.minLength.value)];
    }
    if IsSetNumber(rule.maxLength) && length > rule.maxLength.value {
      ms := ms + [TooLong(fieldLabel, rule.maxLength.value)];
    }
    if IsSetString(rule.pattern) {
      if !p.matches(rule.pattern.value, value) {
        ms := ms + [BadPattern(fieldLabel)];
      }
    }
  }

  method PushNumberBounds(errorMessages: seq<Failure>, field: FieldConfig, rule: ValidationRule, value: Value, p: Parsers)
    returns (ms: seq<Failure>)
    requires field.ftype == Number && value != Str("")
    ensures ms == errorMessages + NumberChecks(field, rule, value, p)
  {
    ms := errorMessages;
    var numValue := NumberOf(value, p);
    if numValue.Some? {
      if rule.min.Some? && numValue.value < rule.min.value {
        ms := ms + [BelowMin(field.fieldLabel, rule.min.value)];
      }
      if rule.max.Some? && numValue.value > rule.max.value {
        ms := ms + [AboveMax(field.fieldLabel, rule.max.value)];
      }
    }
  }

  method PushDateChecks(errorMessages: seq<Failure>, field: FieldConfig, rule: ValidationRule, value: Value, today: int, p: Parsers)
    returns (ms: seq<Failure>)
    requires field.ftype == Date && Truthy(value)
    ensures ms == errorMessages + DateChecks(field, rule, value, today, p)
  {
    ms := errorMessages;
    var fieldLabel := field.fieldLabel;
    var dateValue := DateOf(value, p);
    if dateValue.None? {
      ms := ms + [InvalidDate(fieldLabel)];
      return;
    }
    ms := PushBoundChecks(ms, fieldLabel, rule, dateValue.value, today, p);
  }

  /** The comparisons of a parsed day with today and with the bounds. */
  method PushBoundChecks(errorMessages: seq<Failure>, fieldLabel: string, rule: ValidationRule, d: int, today: int, p: Parsers)
    returns (ms: seq<Failure>)
    ensures ms == errorMessages + BoundChecks(fieldLabel, rule, d, today, p)
  {
    ms := errorMessages;
    if rule.notBefore == Some("today") && d < today {
      ms := ms + [BeforeToday(fieldLabel)];
    }
    if rule.notAfter == Some("today") && d > today {
      ms := ms + [AfterToday(fieldLabel)];
    }
    if IsSetString(rule.minDate) {
      var minDateValue := ResolveBound(rule.minDate.value, today, p);
      if minDateValue.Some? && d < minDateValue.value {
        ms := ms + [BeforeMinDate(fieldLabel, rule.minDate.value)];
      }
    }
    if IsSetString(rule.maxDate) {
      var maxDateValue := ResolveBound(rule.maxDate.value, today, p);
      if maxDateValue.Some? && d > maxDateValue.value {
        ms := ms + [AfterMaxDate(fieldLabel, rule.maxDate.value)];
      }
    }
  }


  // ------------------------------------------------------- properties

  /** A required field fails first, with "<label> is required", exactly when
      its value is falsy (`''`, 0) or blank (see `BlankIffWhiteSpace`). */
  lemma RequiredFailsFirst(field: FieldConfig, value: Value, today: int, p: Parsers)
    requires field.validator.Some?
    ensures var fs := Collected(field, value, today, p);
      (fs != [] && fs[0].Required?) <==> field.validator.value.required && Blank(value)
  {
    var rule := field.validator.value;
    var R := RequiredCheck(field.fieldLabel, rule, value);
    var rest := StringChecks(field.fieldLabel, rule, value, p) + NumberChecks(field, rule, value, p)
      + DateChecks(field, rule, value, today, p);
    CollectedParts(field, value, today, p);
    RequiredLeads(R, rest);
  }

  /** A list whose `Required` failures all come first starts with one
      exactly when that prefix is non-empty. */
  lemma RequiredLeads(R: seq<Failure>, rest: seq<Failure>)
    requires forall f :: f in R ==> f.Required?
    requires forall f :: f in rest ==> !f.Required?
    ensures (R + rest != [] && (R + rest)[0].Required?) <==> R != []
  {
    if R == [] && rest != [] {
      assert rest[0] in rest;
    }
  }

  /** The message a required field shows when its value is blank. */
  lemma RequiredMessage(field: FieldConfig, value: Value, today: int, p: Parsers)
    requires field.validator.Some? && field.validator.value.required && Blank(value)
    ensures FirstMessage(Collected(field, value, today, p)) == field.fieldLabel + " is required"
  {
    RequiredFailsFirst(field, value, today, p);
    var fs := Collected(field, value, today, p);
    assert fs[0] == Required(field.fieldLabel);
  }

  /** A string value is blank exactly when every character is white space. */
  lemma BlankIffWhiteSpace(value: Value)
    requires value.Str?
    ensures Blank(value) <==> forall k :: 0 <= k < |value.s| ==> IsWhitespace(value.s[k])
  {
    TrimEmptyIffBlank(value.s);
  }

  /** Length limits compare the trimmed length in UTF-16 code units; a limit
      of 0 is no limit, and
      only a non-empty string is measured. */
  lemma LengthLimits(field: FieldConfig, value: Value, today: int, p: Parsers)
    requires field.validator.Some?
    ensures var fs, rule := Collected(field, value, today, p), field.validator.value;
      && ((exists f :: f in fs && f.TooShort?) <==>
           value.Str? && value.s != "" && IsSetNumber(rule.minLength) && Utf16Length(Trim(value.s)) < rule.minLength.value)
      && ((exists f :: f in fs && f.TooLong?) <==>
           value.Str? && value.s != "" && IsSetNumber(rule.maxLength) && Utf16Length(Trim(value.s)) > rule.maxLength.value)
  {
    var rule := field.validator.value;
    CollectedParts(field, value, today, p);
    StringChecksFacts(field.fieldLabel, rule, value, p);
  }

  /** `.length` counts UTF-16 code units: a single character beyond the Basic
      Multilingual Plane already exceeds a `maxLength` of 1. */
  lemma AstralCharacterCountsTwice(field: FieldConfig, today: int, p: Parsers)
    requires field.ftype == FieldType.Text && field.validator == Some(NoRule.(maxLength := Some(1)))
    ensures Collected(field, Str("\U{1F600}"), today, p) == [TooLong(field.fieldLabel, 1)]
  {
    var s := "\U{1F600}";
    assert Utf16Length(s) == 2 by {
      assert s[..0] == [];
    }
    assert Trim(s) == s by {
      assert TrimStart(s[1..]) == [];
      assert TrimEnd(s) == s;
    }
  }

  /** What the string checks report on their own. */
  lemma StringChecksFacts(fieldLabel: string, rule: ValidationRule, value: Value, p: Parsers)
    ensures var S := StringChecks(fieldLabel, rule, value, p);
      && ((exists f :: f in S && f.TooShort?) <==>
           value.Str? && value.s != "" && IsSetNumber(rule.minLength) && Utf16Length(Trim(value.s)) < rule.minLength.value)
      && ((exists f :: f in S && f.TooLong?) <==>
           value.Str? && value.s != "" && IsSetNumber(rule.maxLength) && Utf16Length(Trim(value.s)) > rule.maxLength.value)
      && ((exists f :: f in S && f.BadPattern?) <==>
           value.Str? && value.s != "" && IsSetString(rule.pattern) && !p.matches(rule.pattern.value, value.s))
  {
    var S := StringChecks(fieldLabel, rule, value, p);
    if value.Str? && value.s != "" {
      var n := Utf16Length(Trim(value.s));
      if IsSetNumber(rule.minLength) && n < rule.minLength.value {
        assert TooShort(fieldLabel, rule.minLength.value) in S;
      }
      if IsSetNumber(rule.maxLength) && n > rule.maxLength.value {
        assert TooLong(fieldLabel, rule.maxLength.value) in S;
      }
      if IsSetString(rule.pattern) && !p.matches(rule.pattern.value, value.s) {
        assert BadPattern(fieldLabel) in S;
      }
    }
  }

  /** The pattern is tested against the raw, untrimmed string, and only when
      the value is a non-empty string. */
  lemma PatternOnRawValue(field: FieldConfig, value: Value, today: int, p: Parsers)
    requires field.validator.Some?
    ensures var fs, rule := Collected(field, value, today, p), field.validator.value;
      (exists f :: f in fs && f.BadPattern?) <==>
        value.Str? && value.s != "" && IsSetString(rule.pattern) && !p.matches(rule.pattern.value, value.s)
  {
    var rule := field.validator.value;
    CollectedParts(field, value, today, p);
    StringChecksFacts(field.fieldLabel, rule, value, p);
  }

  /** Numeric bounds are inclusive, apply only to `number` fields whose value
      is a number, and skip a value that does not parse. */
  lemma NumberBoundsInclusive(field: FieldConfig, value: Value, today: int, p: Parsers)
    requires field.validator.Some?
    ensures var fs, rule, n := Collected(field, value, today, p), field.validator.value, NumberOf(value, p);
      && ((exists f :: f in fs && f.BelowMin?) <==>
           field.ftype == Number && value != Str("") && n.Some? && rule.min.Some? && n.value < rule.min.value)
      && ((exists f :: f in fs && f.AboveMax?) <==>
           field.ftype == Number && value != Str("") && n.Some? && rule.max.Some? && n.value > rule.max.value)
  {
    var rule := field.validator.value;
    CollectedParts(field, value, today, p);
    NumberChecksFacts(field, rule, value, p);
    OnlyNumberFailures(RequiredCheck(field.fieldLabel, rule, value), StringChecks(field.fieldLabel, rule, value, p),
      NumberChecks(field, rule, value, p), DateChecks(field, rule, value, today, p));
  }

  /** Bound failures among the four groups come from the number group alone. */
  lemma OnlyNumberFailures(R: seq<Failure>, S: seq<Failure>, N: seq<Failure>, D: seq<Failure>)
    requires forall f :: f in R ==> f.Required?
    requires forall f :: f in S ==> f.TooShort? || f.TooLong? || f.BadPattern?
    requires forall f :: f in D ==> IsDateFailure(f)
    ensures (exists f :: f in R + S + N + D && f.BelowMin?) <==> (exists f :: f in N && f.BelowMin?)
    ensures (exists f :: f in R + S + N + D && f.AboveMax?) <==> (exists f :: f in N && f.AboveMax?)
  {
  }

  /** What the numeric checks report on their own. */
  lemma NumberChecksFacts(field: FieldConfig, rule: ValidationRule, value: Value, p: Parsers)
    ensures var N, n := NumberChecks(field, rule, value, p), NumberOf(value, p);
      && ((exists f :: f in N && f.BelowMin?) <==>
           field.ftype == Number && value != Str("") && n.Some? && rule.min.Some? && n.value < rule.min.value)
      && ((exists f :: f in N && f.AboveMax?) <==>
           field.ftype == Number && value != Str("") && n.Some? && rule.max.Some? && n.value > rule.max.value)
  {
    var N, n := NumberChecks(field, rule, value, p), NumberOf(value, p);
    if field.ftype == Number && value != Str("") && n.Some? {
      if rule.min.Some? && n.value < rule.min.value {
        assert BelowMin(field.fieldLabel, rule.min.value) in N;
      }
      if rule.max.Some? && n.value > rule.max.value {
        assert AboveMax(field.fieldLabel, rule.max.value) in N;
      }
    }
  }

  /** An unparsable date yields exactly the "invalid date format" failure, last,
      and no other date check runs. */
  lemma InvalidDateStopsDateChecks(field: FieldConfig, value: Value, today: int, p: Parsers)
    requires field.validator.Some? && field.ftype == Date && Truthy(value) && DateOf(value, p).None?
    ensures var fs := Collected(field, value, today, p);
      && fs != [] && fs[|fs| - 1] == InvalidDate(field.fieldLabel)
      && forall k :: 0 <= k < |fs| - 1 ==> !IsDateFailure(fs[k])
  {
    var rule := field.validator.value;
    var front := RequiredCheck(field.fieldLabel, rule, value) + StringChecks(field.fieldLabel, rule, value, p)
      + NumberChecks(field, rule, value, p);
    CollectedParts(field, value, today, p);
    assert Collected(field, value, today, p) == front + [InvalidDate(field.fieldLabel)];
    forall k | 0 <= k < |front| ensures !IsDateFailure(front[k]) {
      assert front[k] in front;
    }
  }

  /** Date failures arise only for a `date` field with a truthy value. */
  lemma DateFailuresOnlyForDates(field: FieldConfig, value: Value, today: int, p: Parsers)
    requires field.validator.Some?
    ensures (exists f :: f in Collected(field, value, today, p) && IsDateFailure(f)) ==>
      field.ftype == Date && Truthy(value)
  {
    var rule := field.validator.value;
    var R, S := RequiredCheck(field.fieldLabel, rule, value), StringChecks(field.fieldLabel, rule, value, p);
    var N, D := NumberChecks(field, rule, value, p), DateChecks(field, rule, value, today, p);
    CollectedParts(field, value, today, p);
    OnlyDateFailures(R, S, N, D);
  }

  /** "Invalid date format" is reported exactly when a `date` field's truthy
      value does not parse. */
  lemma InvalidDateIff(field: FieldConfig, value: Value, today: int, p: Parsers)
    requires field.validator.Some?
    ensures (exists f :: f in Collected(field, value, today, p) && f.InvalidDate?) <==>
      field.ftype == Date && Truthy(value) && DateOf(value, p).None?
  {
    var rule := field.validator.value;
    var R, S := RequiredCheck(field.fieldLabel, rule, value), StringChecks(field.fieldLabel, rule, value, p);
    var N, D := NumberChecks(field, rule, value, p), DateChecks(field, rule, value, today, p);
    CollectedParts(field, value, today, p);
    OnlyDateFailures(R, S, N, D);
    if field.ftype == Date && Truthy(value) && DateOf(value, p).None? {
      assert D == [InvalidDate(field.fieldLabel)];
      assert InvalidDate(field.fieldLabel) in D;
    } else if field.ftype == Date && Truthy(value) {
      var B := BoundChecks(field.fieldLabel, rule, DateOf(value, p).value, today, p);
      assert D == B;
      assert forall f :: f in D ==> !f.InvalidDate?;
    } else {
      assert D == [];
    }
  }

  /** Date failures among the four groups come from the date group alone. */
  lemma OnlyDateFailures(R: seq<Failure>, S: seq<Failure>, N: seq<Failure>, D: seq<Failure>)
    requires forall f :: f in R ==> f.Required?
    requires forall f :: f in S ==> f.TooShort? || f.TooLong? || f.BadPattern?
    requires forall f :: f in N ==> f.BelowMin? || f.AboveMax?
    ensures (exists f :: f in R + S + N + D && IsDateFailure(f)) <==> (exists f :: f in D && IsDateFailure(f))
    ensures (exists f :: f in R + S + N + D && f.InvalidDate?) <==> (exists f :: f in D && f.InvalidDate?)
  {
  }

  /** `notBefore: 'today'` rejects exactly the days strictly before today, and
      `notAfter: 'today'` exactly those strictly after it. */
  lemma TodayChecks(field: FieldConfig, value: Value, today: int, p: Parsers)
    requires field.validator.Some? && field.ftype == Date && Truthy(value) && DateOf(value, p).Some?
    ensures var fs, rule, d := Collected(field, value, today, p), field.validator.value, DateOf(value, p).value;
      && ((exists f :: f in fs && f.BeforeToday?) <==> rule.notBefore == Some("today") && d < today)
      && ((exists f :: f in fs && f.AfterToday?) <==> rule.notAfter == Some("today") && d > today)
  {
    var rule, d := field.validator.value, DateOf(value, p).value;
    var front := RequiredCheck(field.fieldLabel, rule, value) + StringChecks(field.fieldLabel, rule, value, p)
      + NumberChecks(field, rule, value, p);
    var B := BoundChecks(field.fieldLabel, rule, d, today, p);
    CollectedParts(field, value, today, p);
    assert Collected(field, value, today, p) == front + B;
    assert forall f :: f in front ==> !f.BeforeToday? && !f.AfterToday?;
    BoundChecksToday(field.fieldLabel, rule, d, today, p);
  }

  /** The "today" comparisons of the date checks on a parsed day. */
  lemma BoundChecksToday(fieldLabel: string, rule: ValidationRule, d: int, today: int, p: Parsers)
    ensures var B := BoundChecks(fieldLabel, rule, d, today, p);
      && ((exists f :: f in B && f.BeforeToday?) <==> rule.notBefore == Some("today") && d < today)
      && ((exists f :: f in B && f.AfterToday?) <==> rule.notAfter == Some("today") && d > today)
  {
    var B := BoundChecks(fieldLabel, rule, d, today, p);
    if rule.notBefore == Some("today") && d < today {
      assert BeforeToday(fieldLabel) in B;
    }
    if rule.notAfter == Some("today") && d > today {
      assert AfterToday(fieldLabel) in B;
    }
  }

  /** `minDate`/`maxDate` resolve `'today'` to the day of validation and parse
      any other bound; a bound that does not parse is skipped. */
  lemma DateBounds(field: FieldConfig, value: Value, today: int, p: Parsers)
    requires field.validator.Some? && field.ftype == Date && Truthy(value) && DateOf(value, p).Some?
    ensures var fs, rule, d := Collected(field, value, today, p), field.validator.value, DateOf(value, p).value;
      && ((exists f :: f in fs && f.BeforeMinDate?) <==>
           IsSetString(rule.minDate) && ResolveBound(rule.minDate.value, today, p).Some?
           && d < ResolveBound(rule.minDate.value, today, p).value)
      && ((exists f :: f in fs && f.AfterMaxDate?) <==>
           IsSetString(rule.maxDate) && ResolveBound(rule.maxDate.value, today, p).Some?
           && d > ResolveBound(rule.maxDate.value, today, p).value)
  {
    var rule, d := field.validator.value, DateOf(value, p).value;
    var front := RequiredCheck(field.fieldLabel, rule, value) + StringChecks(field.fieldLabel, rule, value, p)
      + NumberChecks(field, rule, value, p);
    var B := BoundChecks(field.fieldLabel, rule, d, today, p);
    CollectedParts(field, value, today, p);
    assert Collected(field, value, today, p) == front + B;
    assert forall f :: f in front ==> !f.BeforeMinDate? && !f.AfterMaxDate?;
    BoundChecksRange(field.fieldLabel, rule, d, today, p);
  }

  /** The `minDate`/`maxDate` comparisons of the date checks on a parsed day. */
  lemma BoundChecksRange(fieldLabel: string, rule: ValidationRule, d: int, today: int, p: Parsers)
    ensures var B := BoundChecks(fieldLabel, rule, d, today, p);
      && ((exists f :: f in B && f.BeforeMinDate?) <==>
           IsSetString(rule.minDate) && ResolveBound(rule.minDate.value, today, p).Some?
           && d < ResolveBound(rule.minDate.value, today, p).value)
      && ((exists f :: f in B && f.AfterMaxDate?) <==>
           IsSetString(rule.maxDate) && ResolveBound(rule.maxDate.value, today, p).Some?
           && d > ResolveBound(rule.maxDate.value, today, p).value)
  {
    var M, X := MinDateCheck(fieldLabel, rule, d, today, p), MaxDateCheck(fieldLabel, rule, d, today, p);
    var B := BoundChecks(fieldLabel, rule, d, today, p);
    assert forall f :: f in B && (f.BeforeMinDate? || f.AfterMaxDate?) ==> f in M || f in X;
    if IsSetString(rule.minDate) && ResolveBound(rule.minDate.value, today, p).Some?
       && d < ResolveBound(rule.minDate.value, today, p).value {
      assert BeforeMinDate(fieldLabel, rule.minDate.value) in M;
    }
    if IsSetString(rule.maxDate) && ResolveBound(rule.maxDate.value, today, p).Some?
       && d > ResolveBound(rule.maxDate.value, today, p).value {
      assert AfterMaxDate(fieldLabel, rule.maxDate.value) in X;
    }
  }

  /** "today" is read at each validation: the same field and value pass on
      one day and fail on the next. */
  lemma TodayIsReadAtValidation(field: FieldConfig, s: string, d: int, p: Parsers)
    requires field.ftype == Date && field.validator == Some(NoRule.(minDate := Some("today")))
    requires s != "" && p.date(s) == Some(d)
    ensures Collected(field, Str(s), d, p) == []
    ensures Collected(field, Str(s), d + 1, p) == [BeforeMinDate(field.fieldLabel, "today")]
  {
    CollectedParts(field, Str(s), d, p);
    CollectedParts(field, Str(s), d + 1, p);
  }

  // ------------------------------------------------------- check order

  /** The position of a failure's check in the order the validator runs its
      checks; the first collected failure decides the message shown. */
  function Rank(f: Failure): nat {
    match f
    case Required(_) => 0
    case TooShort(_, _) => 1
    case TooLong(_, _) => 2
    case BadPattern(_) => 3
    case BelowMin(_, _) => 4
    case AboveMax(_, _) => 5
    case InvalidDate(_) => 6
    case BeforeToday(_) => 7
    case AfterToday(_) => 8
    case BeforeMinDate(_, _) => 9
    case AfterMaxDate(_, _) => 10
  }

  /** Failures in strictly increasing check order: at most one per check,
      each after those of the checks that run before it. */
  predicate InCheckOrder(fs: seq<Failure>) {
    forall i, j :: 0 <= i < j < |fs| ==> Rank(fs[i]) < Rank(fs[j])
  }

  /** Every failure comes from a check ranked in `[lo, hi)`. */
  predicate RanksWithin(fs: seq<Failure>, lo: nat, hi: nat) {
    forall k :: 0 <= k < |fs| ==> lo <= Rank(fs[k]) < hi
  }

  /** Two ordered runs of failures from consecutive ranges of checks make an
      ordered run. */
  lemma {:induction false} InCheckOrderAppend(a: seq<Failure>, b: seq<Failure>, lo: nat, mid: nat, hi: nat)
    requires lo <= mid <= hi
    requires InCheckOrder(a) && RanksWithin(a, lo, mid)
    requires InCheckOrder(b) && RanksWithin(b, mid, hi)
    ensures InCheckOrder(a + b) && RanksWithin(a + b, lo, hi)
  {
    var ab := a + b;
    forall i, j | 0 <= i < j < |ab| ensures Rank(ab[i]) < Rank(ab[j]) {
      if j < |a| {
        assert ab[i] == a[i] && ab[j] == a[j];
      } else if i < |a| {
        assert ab[i] == a[i] && ab[j] == b[j - |a|];
      } else {
        assert ab[i] == b[i - |a|] && ab[j] == b[j - |a|];
      }
    }
    forall k | 0 <= k < |ab| ensures lo <= Rank(ab[k]) < hi {
      if k < |a| {
        assert ab[k] == a[k];
      } else {
        assert ab[k] == b[k - |a|];
      }
    }
  }

  /** No failure, or one from the check ranked `r`. */
  lemma AtMostOne(fs: seq<Failure>, r: nat)
    requires |fs| <= 1 && forall k :: 0 <= k < |fs| ==> Rank(fs[k]) == r
    ensures InCheckOrder(fs) && RanksWithin(fs, r, r + 1)
  {
  }

  lemma RequiredCheckOrder(fieldLabel: string, rule: ValidationRule, v: Value)
    ensures var R := RequiredCheck(fieldLabel, rule, v);
      InCheckOrder(R) && RanksWithin(R, 0, 1)
  {
  }

  /** minLength, then maxLength, then the pattern. */
  lemma StringChecksOrder(fieldLabel: string, rule: ValidationRule, v: Value, p: Parsers)
    ensures var S := StringChecks(fieldLabel, rule, v, p);
      InCheckOrder(S) && RanksWithin(S, 1, 4)
  {
    if v.Str? && v.s != "" {
      var n := Utf16Length(Trim(v.s));
      LengthAndPatternOrder(fieldLabel, rule,
        IsSetNumber(rule.minLength) && n < rule.minLength.value,
        IsSetNumber(rule.maxLength) && n > rule.maxLength.value,
        IsSetString(rule.pattern) && !p.matches(rule.pattern.value, v.s));
    }
  }

  /** The three string checks, whichever of them fail. */
  lemma LengthAndPatternOrder(fieldLabel: string, rule: ValidationRule, tooShort: bool, tooLong: bool, badPattern: bool)
    requires tooShort ==> rule.minLength.Some?
    requires tooLong ==> rule.maxLength.Some?
    ensures var S :=
      (if tooShort then [TooShort(fieldLabel, rule.minLength.value)] else [])
      + (if tooLong then [TooLong(fieldLabel, rule.maxLength.value)] else [])
      + (if badPattern then [BadPattern(fieldLabel)] else []);
      InCheckOrder(S) && RanksWithin(S, 1, 4)
  {
    var short: seq<Failure> := if tooShort then [TooShort(fieldLabel, rule.minLength.value)] else [];
    var long: seq<Failure> := if tooLong then [TooLong(fieldLabel, rule.maxLength.value)] else [];
    var pattern: seq<Failure> := if badPattern then [BadPattern(fieldLabel)] else [];
    AtMostOne(short, 1);
    AtMostOne(long, 2);
    AtMostOne(pattern, 3);
    InCheckOrderAppend(short, long, 1, 2, 3);
    InCheckOrderAppend(short + long, pattern, 1, 3, 4);
  }

  /** min, then max. */
  lemma NumberChecksOrder(field: FieldConfig, rule: ValidationRule, v: Value, p: Parsers)
    ensures var N := NumberChecks(field, rule, v, p);
      InCheckOrder(N) && RanksWithin(N, 4, 6)
  {
    if field.ftype == Number && v != Str("") && NumberOf(v, p).Some? {
      var n := NumberOf(v, p).value;
      var below: seq<Failure> := if rule.min.Some? && n < rule.min.value then [BelowMin(field.fieldLabel, rule.min.value)] else [];
      var above: seq<Failure> := if rule.max.Some? && n > rule.max.value then [AboveMax(field.fieldLabel, rule.max.value)] else [];
      assert NumberChecks(field, rule, v, p) == below + above;
      AtMostOne(below, 4);
      AtMostOne(above, 5);
      InCheckOrderAppend(below, above, 4, 5, 6);
    } else {
      assert NumberChecks(field, rule, v, p) == [];
    }
  }

  /** notBefore, notAfter, minDate, then maxDate. */
  lemma BoundChecksOrder(fieldLabel: string, rule: ValidationRule, d: int, today: int, p: Parsers)
    ensures var B := BoundChecks(fieldLabel, rule, d, today, p);
      InCheckOrder(B) && RanksWithin(B, 7, 11)
  {
    var before: seq<Failure> := if rule.notBefore == Some("today") && d < today then [BeforeToday(fieldLabel)] else [];
    var after: seq<Failure> := if rule.notAfter == Some("today") && d > today then [AfterToday(fieldLabel)] else [];
    var M, X := MinDateCheck(fieldLabel, rule, d, today, p), MaxDateCheck(fieldLabel, rule, d, today, p);
    assert BoundChecks(fieldLabel, rule, d, today, p) == before + after + M + X;
    MinMaxDateOrder(fieldLabel, rule, d, today, p);
    AtMostOne(before, 7);
    AtMostOne(after, 8);
    InCheckOrderAppend(before, after, 7, 8, 9);
    InCheckOrderAppend(before + after, M, 7, 9, 10);
    InCheckOrderAppend(before + after + M, X, 7, 10, 11);
  }

  /** The `minDate` and `maxDate` comparisons report at most one failure each. */
  lemma MinMaxDateOrder(fieldLabel: string, rule: ValidationRule, d: int, today: int, p: Parsers)
    ensures var M := MinDateCheck(fieldLabel, rule, d, today, p);
      InCheckOrder(M) && RanksWithin(M, 9, 10)
    ensures var X := MaxDateCheck(fieldLabel, rule, d, today, p);
      InCheckOrder(X) && RanksWithin(X, 10, 11)
  {
    var M, X := MinDateCheck(fieldLabel, rule, d, today, p), MaxDateCheck(fieldLabel, rule, d, today, p);
    assert |M| <= 1 && |X| <= 1;
    forall k | 0 <= k < |M| ensures Rank(M[k]) == 9 {
      assert M[k] in M;
    }
    forall k | 0 <= k < |X| ensures Rank(X[k]) == 10 {
      assert X[k] in X;
    }
  }

  /** An invalid date alone, or the bound comparisons. */
  lemma DateChecksOrder(field: FieldConfig, rule: ValidationRule, v: Value, today: int, p: Parsers)
    ensures var D := DateChecks(field, rule, v, today, p);
      InCheckOrder(D) && RanksWithin(D, 6, 11)
  {
    if field.ftype == Date && Truthy(v) && DateOf(v, p).Some? {
      BoundChecksOrder(field.fieldLabel, rule, DateOf(v, p).value, today, p);
    }
  }

  /** The validator reports its failures in the order its checks run, at most
      one per check: required, minLength, maxLength, pattern, min, max, date
      format, notBefore, notAfter, minDate, maxDate. So the message shown is
      that of the earliest failing check. */
  lemma CheckOrder(field: FieldConfig, value: Value, today: int, p: Parsers)
    ensures InCheckOrder(Collected(field, value, today, p))
  {
    if field.validator.Some? {
      var rule := field.validator.value;
      var R, S := RequiredCheck(field.fieldLabel, rule, value), StringChecks(field.fieldLabel, rule, value, p);
      var N, D := NumberChecks(field, rule, value, p), DateChecks(field, rule, value, today, p);
      CollectedParts(field, value, today, p);
      RequiredCheckOrder(field.fieldLabel, rule, value);
      StringChecksOrder(field.fieldLabel, rule, value, p);
      NumberChecksOrder(field, rule, value, p);
      DateChecksOrder(field, rule, value, today, p);
      InCheckOrderAppend(R, S, 0, 1, 4);
      InCheckOrderAppend(R + S, N, 0, 4, 6);
      InCheckOrderAppend(R + S + N, D, 0, 6, 11);
    }
  }

  /** The four groups of checks, in order, and what each group can report. */
  lemma CollectedParts(field: FieldConfig, value: Value, today: int, p: Parsers)
    requires field.validator.Some?
    ensures var rule := field.validator.value;
      Collected(field, value, today, p) ==
        RequiredCheck(field.fieldLabel, rule, value) + StringChecks(field.fieldLabel, rule, value, p)
        + NumberChecks(field, rule, value, p) + DateChecks(field, rule, value, today, p)
  {
  }
}

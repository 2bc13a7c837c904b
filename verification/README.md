# Task Management: schema-driven form and task store

This project models the core of a React task manager in Dafny. The core has two parts.

The **dynamic form engine** renders a form from a JSON schema and validates it:

- `Validator` is the field validator. It runs the required, length, pattern, number and date checks in a fixed order, collects one message per failed check, and reports the first message.
- `FormState` builds the initial value map from the schema and the caller's initial values.
- `Form` is the form session, a class over the value, error and touched maps and the submit message. Its handlers are change, blur, full validation and submit.
- `FormField` is what one field view decides:
  - the error state and the valid state;
  - the widget;
  - the required marker;
  - the character counter;
  - the error text.

The **task store** (`TaskContext`, over the types in `TaskTypes`) holds the task list, the status filter and the sort order:

- a reducer applies actions to that state;
- a class `TaskStore` holds the state and dispatches add, update, delete, set-filter and set-sort;
- `FilteredTasks` gives the filtered, sorted view;
- `Summary` counts the tasks by status.

Several things the source takes from its environment are parameters of the model:

- the clock: today's day, the id and the timestamps;
- the number and date parsers and the regular-expression test (a `Parsers` value);
- the due-date time stamp and the locale title comparison (a `Collation` value).

React's state setters become assignments to the class fields, one handler at a time.

## Model

| member | source | states |
|---|---|---|
| Validator.Text | src/form/hook/useValidator.ts:24-100 | every message the validator pushes begins with the field's label |
| Validator.FirstMessage | src/form/hook/useValidator.ts:106-109 | the reported message is empty exactly when nothing failed, and otherwise begins with the first failure's label |
| Validator.TrimStartIsSuffix | src/form/hook/useValidator.ts:30 | dropping leading white space leaves a suffix that is empty or starts with a non-white character |
| Validator.TrimEndIsPrefix | src/form/hook/useValidator.ts:30 | dropping trailing white space leaves a prefix that is empty or ends with a non-white character |
| Validator.TrimIsInfix | src/form/hook/useValidator.ts:30 | the trimmed value is the infix of the value between its leading and trailing white space |
| Validator.TrimEmptyIffBlank | src/form/hook/useValidator.ts:23 | a string trims to `''` exactly when every character is white space |
| Validator.NumberOf | src/form/hook/useValidator.ts:53 | a numeric value is its own number; a string is whatever `Number(...)` makes of it |
| Validator.ParseDate | src/form/hook/useValidator.ts:9-13 | the empty string is never a date; any other string is a date exactly when the date parser accepts it |
| Validator.DateOf | src/form/hook/useValidator.ts:66 | a falsy value (`''` or 0) is never a date; a string goes through `parseDate`, a non-zero number through `new Date(n)` |
| Validator.ResolveBound | src/form/hook/useValidator.ts:86-88 | a bound of `'today'` is the current day, `''` is no bound, and any other bound is the parsed literal |
| Validator.RequiredCheck | src/form/hook/useValidator.ts:22-26 | the required check yields only `Required` failures, each naming the field |
| Validator.StringChecks | src/form/hook/useValidator.ts:29-49 | the string checks yield only too-short, too-long and bad-pattern failures, each naming the field |
| Validator.NumberChecks | src/form/hook/useValidator.ts:52-62 | the number checks yield only below-min and above-max failures, each naming the field |
| Validator.DateChecks | src/form/hook/useValidator.ts:65-104 | the date checks yield only date failures, each naming the field |
| Validator.BoundChecks | src/form/hook/useValidator.ts:74-102 | the comparisons of a parsed day yield only the four bound failures, each naming the field |
| Validator.MinDateCheck | src/form/hook/useValidator.ts:84-92 | the `minDate` comparison yields only before-min-date failures |
| Validator.MaxDateCheck | src/form/hook/useValidator.ts:94-102 | the `maxDate` comparison yields only after-max-date failures |
| Validator.Collected | src/form/hook/useValidator.ts:15-104 | a field without a validator collects no failure, and every collected failure names the field |
| Validator.CheckOrder | src/form/hook/useValidator.ts:21-102 | the failures come in the order the checks run, at most one per check: required, minLength, maxLength, pattern, min, max, date format, notBefore, notAfter, minDate, maxDate. So the message shown is the earliest failing check's; for example, a number field failing both `maxLength` and `max` reports the length message |
| Validator.Validate | src/form/hook/useValidator.ts:15-110 | the result is valid exactly when no check failed; its message is the first failure's message; an invalid result's message begins with the field's label |
| Validator.PushRequired | src/form/hook/useValidator.ts:21-26 | appends exactly the required check's failures to the list |
| Validator.PushLengthAndPattern | src/form/hook/useValidator.ts:29-49 | appends exactly the string checks' failures, in order, for a non-empty string |
| Validator.PushNumberBounds | src/form/hook/useValidator.ts:52-62 | appends exactly the number checks' failures for a `number` field with a non-empty value |
| Validator.PushDateChecks | src/form/hook/useValidator.ts:65-104 | appends exactly the date checks' failures for a `date` field with a truthy value |
| Validator.PushBoundChecks | src/form/hook/useValidator.ts:70-102 | appends exactly the today, `minDate` and `maxDate` failures for a parsed day |
| Validator.RequiredFailsFirst | src/form/hook/useValidator.ts:21-26 | the first failure is `Required` exactly when the rule requires a value and the value is falsy or blank |
| Validator.RequiredMessage | src/form/hook/useValidator.ts:22-24 | a required field with a blank value reports "<label> is required" |
| Validator.BlankIffWhiteSpace | src/form/hook/useValidator.ts:23 | a string value fails `required` exactly when it is all white space |
| Validator.LengthLimits | src/form/hook/useValidator.ts:32-40 | too-short and too-long are reported exactly when a non-empty string's trimmed length, in UTF-16 code units, breaks a non-zero limit |
| Validator.AstralCharacterCountsTwice | src/form/hook/useValidator.ts:38-40 | one character beyond the Basic Multilingual Plane already breaks a `maxLength` of 1, because `.length` counts it as two units |
| Validator.StringChecksFacts | src/form/hook/useValidator.ts:29-49 | the same three facts for the string checks alone, including the pattern test |
| Validator.PatternOnRawValue | src/form/hook/useValidator.ts:42-48 | bad-pattern is reported exactly when a non-empty string with a non-empty pattern fails the test on the untrimmed value |
| Validator.NumberBoundsInclusive | src/form/hook/useValidator.ts:52-62 | below-min and above-max are reported exactly when a `number` field's non-empty, numeric value lies strictly outside a present bound |
| Validator.NumberChecksFacts | src/form/hook/useValidator.ts:52-62 | the same two facts for the number checks alone |
| Validator.InvalidDateStopsDateChecks | src/form/hook/useValidator.ts:65-69 | an unparsable date yields the invalid-format failure as the last failure, with no other date failure |
| Validator.DateFailuresOnlyForDates | src/form/hook/useValidator.ts:65-104 | a date failure of any kind (invalid format, today, `minDate`, `maxDate`) arises only for a `date` field whose value is truthy |
| Validator.InvalidDateIff | src/form/hook/useValidator.ts:65-69 | "invalid date format" is reported exactly when a `date` field's truthy value does not parse |
| Validator.TodayChecks | src/form/hook/useValidator.ts:74-82 | `notBefore`/`notAfter` of `'today'` reject exactly the days strictly before or after today |
| Validator.BoundChecksToday | src/form/hook/useValidator.ts:74-82 | the same two facts for the bound comparisons alone |
| Validator.DateBounds | src/form/hook/useValidator.ts:84-102 | `minDate`/`maxDate` reject exactly the days strictly outside a bound that resolves to `'today'` or to a parsed date; an unparsable bound is ignored |
| Validator.BoundChecksRange | src/form/hook/useValidator.ts:84-102 | the same facts for the bound comparisons alone |
| Validator.TodayIsReadAtValidation | src/form/hook/useValidator.ts:84-92 | one value under `minDate: 'today'` passes on its own day and fails on the next day |
| LocalTime.Midnight | src/form/hook/useValidator.ts:71-72 | `setHours(0, 0, 0, 0)` moves an instant back by less than a day, to the local midnight of the same local day: the result plus the offset is a whole number of days |
| LocalTime.DateOnlyLocalDay | src/form/hook/useValidator.ts:11 | a date-only string's instant falls on its own local day east of UTC and on the day before west of it |
| LocalTime.BoundDayRejected | src/form/hook/useValidator.ts:86-90 | as written, outside UTC, a value on a literal `minDate`'s own day is rejected |
| LocalTime.BoundDayRejectedAtUtcPlus5 | src/form/hook/useValidator.ts:86-90 | the same, at UTC+5 for the bound 2024-01-15 |
| LocalTime.UtcLiteralMinDateIsDayOrder | src/form/hook/useValidator.ts:86-90 | in UTC, the literal `minDate` check as written is the day order |
| LocalTime.LiteralMaxDateIsDayOrder | src/form/hook/useValidator.ts:96-100 | the literal `maxDate` check as written is the day order in every zone |
| LocalTime.NormalisedMinDateIsDayOrder | src/form/hook/useValidator.ts:86-90 | with the bound also moved to local midnight, the `minDate` check is the day order in every zone, so the bound is inclusive |
| FormState.InitialData | src/form/hook/useFormState.ts:18-27 | the keys are exactly the schema ids; a field's value is its initial value if one is given, else its schema default; the later of two fields with one id decides |
| FormState.LastIndexOf | src/form/hook/useFormState.ts:20-25 | the last field with a schema id is the one whose value survives |
| FormState.DistinctIdsInitialData | src/form/hook/useFormState.ts:20-25 | with distinct ids, every field's entry is its own initial value |
| FormField.WidgetFor | src/form/components/fields/FormField.tsx:29-56 | `select` gets the select widget; every other type, including an undeclared one, gets the text widget |
| FormField.Render | src/form/components/fields/FormField.tsx:25-81 | error and valid states are never both shown. The error state means touched with a non-empty error. The valid state means touched, no error and a truthy value. The error text shows exactly in the error state. The required marker follows the rule. The counter shows for text and email fields with a truthy limit, counting the value's UTF-16 code units. |
| FormField.FalsyValueIsNotValid | src/form/components/fields/FormField.tsx:26 | a touched field with an empty or zero value and no error is neither failing nor valid |
| FormField.UntouchedShowsNothing | src/form/components/fields/FormField.tsx:25-26 | an untouched field shows no state and no error text |
| FormTypes.IntText | src/form/hook/useValidator.ts:34 | the text of a number reads back as that number, starts with `-` exactly when it is negative, and has no leading zero |
| FormTypes.NatText | src/form/components/fields/FormField.tsx:74 | the text of a natural number is digits only, reads back as the number, and has no leading zero |
| FormTypes.Utf16Length | src/form/components/fields/FormField.tsx:74 | `.length` of a single character is 1 inside the Basic Multilingual Plane and 2 beyond it; it lies between the number of characters and twice it, and equals it when no character lies beyond that plane |
| FormTypes.Utf16LengthAppend | src/form/components/fields/FormField.tsx:74 | `.length` of a concatenation is the sum of the parts' lengths; with the one-character case this fixes the count of every string |
| Form.FindField | src/form/DynamicForm.tsx:33 | `None` exactly when no schema field has the id; otherwise the first field with it |
| Form.ErrorEntry | src/form/DynamicForm.tsx:36-39 | the entry a handler writes is `''` exactly when the value passes |
| Form.Entries | src/form/DynamicForm.tsx:61-67 | one entry per schema field |
| Form.EntryFails | src/form/DynamicForm.tsx:61-67 | a field's entry is non-empty exactly when the field fails with its stored value |
| Form.ErrorsOfKeys | src/form/DynamicForm.tsx:61-67 | after a full validation an id has an entry exactly when some field with that id fails |
| Form.ErrorsOfEntries | src/form/DynamicForm.tsx:61-67 | an id's entry is the message of the last failing field with that id |
| Form.ErrorsOfEmpty | src/form/DynamicForm.tsx:57-78 | the error map is empty exactly when every entry is empty |
| Form.LastFailing | src/form/DynamicForm.tsx:61-67 | a failing field has a last failing field with the same id at or after it |
| Form.NoErrorsIffAllPass | src/form/DynamicForm.tsx:57-78 | a full validation records no error exactly when every field passes with its stored value |
| Form.AllPassIffEntries | src/form/DynamicForm.tsx:57-78 | every field passes exactly when every entry is empty |
| Form.ShownFailingAfterValidation | src/form/DynamicForm.tsx:57-78 | after a full validation a field is shown failing exactly when some field with its id fails with the stored value |
| Form.ShownFailingByEntries | src/form/DynamicForm.tsx:57-78 | the same, stated over the fields' error entries |
| Form.CollectErrors | src/form/DynamicForm.tsx:58-67 | the loop builds the error map of the fields' entries, and `isValid` holds exactly when that map is empty |
| Form.TouchAll | src/form/DynamicForm.tsx:71-75 | the loop marks exactly the schema ids as touched |
| Form.DynamicForm.constructor | src/form/hook/useFormState.ts:14-30 | the session starts with the initial value map, no errors, nothing touched and the message hidden |
| Form.DynamicForm.HandleChange | src/form/DynamicForm.tsx:29-42 | stores the new value. A touched field known to the schema gets the new value's error entry. Otherwise the errors are unchanged. Touched flags and the message are unchanged. |
| Form.DynamicForm.HandleBlur | src/form/DynamicForm.tsx:44-55 | marks the field touched. A field known to the schema gets its stored value's error entry. Values and the message are unchanged. |
| Form.DynamicForm.ValidateAll | src/form/DynamicForm.tsx:57-78 | sets the error map of a full validation and marks every field touched; the result holds exactly when every field passes; values unchanged |
| Form.DynamicForm.HandleSubmit | src/form/DynamicForm.tsx:80-103 | validates everything. When all fields pass, it shows the success message and delivers the values if a submit callback exists. Otherwise it shows the error message. A form without fields always succeeds. |
| TaskContext.ReplaceById | src/context/TaskContext.tsx:34-40 | same length; every task with the payload's id becomes the payload, the others stay in place |
| TaskContext.WithoutId | src/context/TaskContext.tsx:42-46 | keeps exactly the tasks with another id |
| TaskContext.WithoutIdAppend | src/context/TaskContext.tsx:42-46 | deletion distributes over concatenation, so the kept tasks keep their order |
| TaskContext.WithoutAbsentId | src/context/TaskContext.tsx:42-46 | deleting an id no task has changes nothing |
| TaskContext.WithStatusCounts | src/context/TaskContext.tsx:135-137 | the status filter keeps every task with that status, as often as it occurs, and no other |
| TaskContext.WithStatusAppend | src/context/TaskContext.tsx:157-159 | the status filter distributes over concatenation |
| TaskContext.FindById | src/context/TaskContext.tsx:103-104 | `None` exactly when no task has the id; otherwise a task of the list with it |
| TaskContext.FindByIdFirst | src/context/TaskContext.tsx:103 | the task found is at the first position holding the id |
| TaskContext.FindAfterReplace | src/context/TaskContext.tsx:34-40 | after an update the first task with the payload's id is the payload |
| TaskContext.Reduce | src/context/TaskContext.tsx:24-63 | only set-filter changes the filter, to its payload, and only set-sort changes the order, to its payload; those two leave the tasks as they are; set-tasks, which has no case, leaves the whole state unchanged |
| TaskContext.AddAppends | src/context/TaskContext.tsx:28-32 | adding appends the payload after the unchanged tasks |
| TaskContext.UpdateReplaces | src/context/TaskContext.tsx:34-40 | updating replaces the tasks with the payload's id, position by position |
| TaskContext.DeleteRemoves | src/context/TaskContext.tsx:42-46 | deleting removes exactly the tasks with the id, and is the identity when none has it |
| TaskContext.NewTask | src/context/TaskContext.tsx:87-95 | the new task has the given id and creation time and no update time. Its description defaults to `''`. Its status defaults to pending, an empty status included. |
| TaskContext.Merge | src/context/TaskContext.tsx:106-110 | the updated task keeps id and creation time, takes every given entry, keeps every other one, and gets the update time |
| TaskContext.Insert | src/context/TaskContext.tsx:140-147 | inserting adds exactly the task to the list |
| TaskContext.Sort | src/context/TaskContext.tsx:140-147 | the sorted list is a permutation of its input |
| TaskContext.SortedCons | src/context/TaskContext.tsx:140-147 | a task that may precede every task of a sorted list starts a sorted list |
| TaskContext.InsertMembers | src/context/TaskContext.tsx:140-147 | the inserted list holds only the task and the list's tasks |
| TaskContext.InsertSorted | src/context/TaskContext.tsx:140-147 | inserting into a sorted list keeps it sorted |
| TaskContext.SortSorted | src/context/TaskContext.tsx:140-147 | with a consistent title comparison the sort's result is in the active order |
| TaskContext.FilteredTasks | src/context/TaskContext.tsx:132-150 | the view holds exactly the tasks whose status is the filter (all tasks for `'all'`), each as often as in the store |
| TaskContext.FilteredTasksSorted | src/context/TaskContext.tsx:140-147 | with a consistent title comparison the view is in the active order |
| TaskContext.Summary | src/context/TaskContext.tsx:154-161 | the total is the number of tasks |
| TaskContext.SummaryStep | src/context/TaskContext.tsx:157-159 | a list's three status counts are the tail's plus one for a head with a declared status |
| TaskContext.SummaryAddsUp | src/context/TaskContext.tsx:154-161 | the status counts never exceed the total, and add up to it exactly when every status is a declared one |
| TaskContext.AddCounts | src/context/TaskContext.tsx:28-32 | adding a task raises the total and its own status's count by one and leaves the other counts |
| TaskContext.TaskStore.constructor | src/context/TaskContext.tsx:74-80 | the store starts with the saved tasks, filter `'all'` and the due-date order |
| TaskContext.TaskStore.AddTask | src/context/TaskContext.tsx:87-99 | appends the new task built from the input and returns it |
| TaskContext.TaskStore.UpdateTask | src/context/TaskContext.tsx:102-114 | an unknown id changes nothing and returns `None`. Otherwise it returns the first matching task merged with the updates, writes it over every task with that id, and that task is then the one found by id. |
| TaskContext.TaskStore.DeleteTask | src/context/TaskContext.tsx:117-119 | the state after a delete action |
| TaskContext.TaskStore.SetFilter | src/context/TaskContext.tsx:122-124 | the state after a set-filter action |
| TaskContext.TaskStore.SetSortBy | src/context/TaskContext.tsx:127-129 | the state after a set-sort action |

## Findings

| source | as written | input that shows it | evidently intended | confidence | as-written member | corrected member |
|---|---|---|---|---|---|---|
| src/form/hook/useValidator.ts:86-90 | the value is moved to local midnight, but a literal `minDate` keeps the UTC midnight it parses to | zone UTC+5, `minDate: "2024-01-15"`, value `"2024-01-15"`: rejected with "must be on or after 2024-01-15" | the bound is inclusive, as the message says: a value on the bound's day passes | medium, not executed | LocalTime.BoundDayRejected | LocalTime.NormalisedMinDateIsDayOrder |

The rest of the model uses the corrected comparison: `Validator.MinDateCheck` compares day numbers, and `Validator.DateBounds` proves the bound inclusive.

## Left out

- Numbers are integers. Floating-point values and `NaN` are not modelled:
  - `Number(value)` is a parser that returns an integer or nothing;
  - the due-date time stamp is an integer;
  - a `NaN` comparator result (an unparsable due date) is not modelled.
- Dates are day numbers from a date parser passed in. `toISOString`, the UTC day `getTodayDate` reads, and time zones are not modelled in `Validator`.
- Validator.DateBounds and Validator.BoundChecksRange: these state the intended, inclusive `minDate` bound. As written, a literal `minDate` is compared without being moved to local midnight. Outside UTC, a value on the bound's own day is then rejected; see "## Findings" and the `LocalTime` module.
- Form.DynamicForm.HandleChange, FormState.InitialData and FormField.Render: field ids that name members of `Object.prototype` (`toString`, `constructor` and the like) are not modelled. The source looks values, touched flags and errors up in plain objects, where such a key finds an inherited function: the field counts as touched before any blur, an initial value overrides the schema default, and an error shows with none collected. The model's maps have no inherited keys.
- `new RegExp(pattern)` can throw on an invalid pattern. The model's pattern test is a total function and does not throw.
- `mustBeTrue` is declared in the rule type and carried by the model. The validator never checks it, and neither does the model.
- `SET_TASKS` is declared as an action, but the reducer has no case for it. It falls to the default and, in the model, leaves the state unchanged.
- The sort comparator's final `return 0` is unreachable for the two declared orders, so the order is a two-valued datatype.
- `TaskContext.Sort`: an insertion sort that stands in for `Array.prototype.sort`. Its contract states permutation and, under a consistent title comparison, sortedness. It does not state stability. Without a consistent comparison the engine's order is unspecified, and nothing is claimed.
- `TaskContext.Merge`: an update whose entry is explicitly set to `undefined` overwrites the field in the source. The model treats an absent entry and an `undefined` one alike, as "keep".
- `Form.DynamicForm.HandleChange` and `Form.DynamicForm.HandleBlur`: each handler applies its updates at once. React's batched, deferred state updates are not modelled, and neither is the stale `formData` a blur handler can read within one render.
- The following are outside the model:
  - `localStorage` loading and saving (the constructor takes the saved tasks);
  - JSON parsing;
  - the provider and context plumbing, and `useTaskContext`'s error;
  - `console.log`;
  - all markup, CSS classes and event wiring of the rendered components;
  - `SelectField`, `TextField`, the submit button and the submit message view.
- The clock supplies `Date.now()` and ISO time stamps; the model takes the id and the time stamps as parameters.
- Every task status is a string, as in the stored JSON. The summary counts only the three declared statuses, and `TaskContext.SummaryAddsUp` states when they add up to the total.
- The numeric text behind the character counter covers integers only; JavaScript's exponent and fraction formats are not modelled.

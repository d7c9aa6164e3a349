# Form validation engine

A model in Dafny of the validation core of the framework's `Form` class. A form is
declared as a schema: an ordered map from field names to field specifications,
holding the tag, label, error label, `require` flag, attributes, pattern name,
modifier lists, upload settings, and alternative and confirmation targets. When
the form is submitted, `isValid` does four things in order:

- it normalises the schema once (`cleanData`);
- it stores the submitted files (`performUploads`);
- it walks the fields in declaration order (`checkInputs`), rewriting the bound
  submission and filling four failure lists;
- it reports the verdict.

`getError` turns the failure lists into one message. The schema accessors
(`setProperty`, `setInput`, `unsetInput`, `getInput`), `injectValues`,
`getRegExp`, `isDate` and the `{id}` substitution of `setUploadFileName` are
modelled too.

The model is split into modules:

- `PhpValue` holds PHP values, `empty()`, `isset`, a simplified loose `==` and
  `trim()`.
- `Schema` holds field specifications and what `cleanData` does to one field.
- `Helpers` holds `getRegExp`, `isDate` and the `{id}` substitution.
- `Validation` holds one turn of `checkInputs` (`CheckField`) and the whole loop
  (`CheckFields`), both as pure functions.
- `Uploads` holds one turn of `performUploads` (`UploadStep`) and the loop
  (`UploadAll`).
- `Errors` holds `getErrorFromArray` and `getError` as functions.
- `FormEngine` holds the `Form` class. Its fields are the ones the PHP object
  updates in place. Each of its methods is proved equal to the pure definition
  above it, for example:
  - `CheckInputs` ends in the state `CheckFields` computes;
  - `PerformUploads` ends in the state `UploadAll` computes;
  - `GetError` returns `ErrorMessage`.

Collaborators are passed in as values of a datatype:

| Datatype | What it carries |
|---|---|
| `Env` | the captcha session value, the named modifier functions, and `preg_match` on a non-empty pattern |
| `UploadService` | the random number for a stored file name, the upload's type check, and the send, which either yields an upload id or fails |
| `Dictionary` | `Dictionary::term`, `Dictionary::UNDEFINED` and `sprintf` |

The submission is a parameter: `None` stands for a missing `$_POST[name]`. The
submitted files are a list of (field, file) pairs in `$_FILES` order; a missing
`$_FILES[name]` is the empty list. A `trigger_error` for a required field with
no pattern stops the script. The model returns it as `Fatal(field)`, and the
loop stops there.

Where the engine's documented behaviour leaves a case open or differs from the
code, the model follows the code:

- A submit control, `case "submit"` at line 418: the `continue` inside the
  `switch` acts as `break`. The field loses its value and goes on through the
  later checks.
- A list value whose elements are matched one by one (lines 515-520) passes when
  it is empty, because the loop that would fail it never runs.
- The single-entry message key is the singular key followed by PHP's string
  form of the first entry: the field name, or `Array` for a pair (line 632). It
  is not a positional index.
- The date pattern ends in `$`. PCRE lets one final newline through there, so
  `isDate` accepts "2021-05-04\n".

## Model

| member | source | states |
|---|---|---|
| PhpValue.Trim | includes/libs/core/tools/form/class.Form.php:470-478 | the result is the infix of the input that starts after the leading run of strippable characters; everything before and after it is strippable, and it starts and ends with a character `trim()` keeps, which fixes it uniquely |
| PhpValue.TrimKeepsClean | includes/libs/core/tools/form/class.Form.php:470-471 | a string that starts and ends with a non-strippable character is left unchanged by `trim()` |
| PhpValue.LooseEqualsSymmetric | includes/libs/core/tools/form/class.Form.php:459 | loose equality does not depend on the order of its operands, so the confirm comparison treats the field and its target symmetrically |
| PhpValue.Empty | includes/libs/core/tools/form/class.Form.php:391 | `empty()`: null, false, 0, "", "0" and the empty list are empty, and nothing else |
| PhpValue.ToText | includes/libs/core/tools/form/class.Form.php:286-287 | the string a value becomes when concatenated: "" for null and false, "1" for true, decimal digits for an integer, "Array" for a list |
| PhpValue.LooseEquals | includes/libs/core/tools/form/class.Form.php:459 | the loose `!=` of the confirm check, negated: a boolean against emptiness, null against the empty values, an integer against its decimal string, otherwise equal values of the same kind |
| PhpValue.StripsOnlyAt | includes/libs/core/tools/form/class.Form.php:470-478 | the range predicate used by `Trim` means every character in the range is strippable |
| Schema.CleanSpec | includes/libs/core/tools/form/class.Form.php:271-288 | after normalisation every general key is set, and so is each tag-specific key: file types for an upload, length for a captcha, parameters for a select |
| Schema.CleanSpecKeepsSetKeys | includes/libs/core/tools/form/class.Form.php:271-283 | a key that was already set keeps its value; the error label is excluded, because lines 286-287 replace it with the placeholder when the label is empty |
| Schema.CleanSpecFillsDefaults | includes/libs/core/tools/form/class.Form.php:248-267 | each missing key gets its documented default: empty label, `false`, empty arrays, the default file-type list, length 5 |
| Schema.CleanSpecErrorLabel | includes/libs/core/tools/form/class.Form.php:286-287 | the error label becomes the placeholder exactly when the label is empty and a placeholder is declared; otherwise it is kept, or defaults to "" |
| Schema.CleanSpecKeepsOtherKeys | includes/libs/core/tools/form/class.Form.php:271-288 | tag, targets, file name, folder, resize, upload flag and unknown keys are untouched |
| Schema.CleanSpecIdempotent | includes/libs/core/tools/form/class.Form.php:271-288 | normalising a normalised field changes nothing |
| Schema.WithAttribute | includes/libs/core/tools/form/class.Form.php:234-236 | the attribute gets the value, the attribute array is created if missing, other attributes and all other keys are unchanged |
| Schema.WithoutAttribute | includes/libs/core/tools/form/class.Form.php:711 | the attribute reads as null afterwards; the other attributes and keys are unchanged, and a missing attribute array stays missing |
| Helpers.NamedPattern | includes/libs/core/tools/form/class.Form.php:55-94 | every predefined pattern is non-empty |
| Helpers.GetRegExp | includes/libs/core/tools/form/class.Form.php:559-567 | `custom:` declarations yield the rest of the text, predefined names their pattern, anything else "" and only then |
| Helpers.GetRegExpCustomRoundTrip | includes/libs/core/tools/form/class.Form.php:561-562 | declaring `custom:` followed by a pattern gives back exactly that pattern |
| Helpers.GetRegExpNamed | includes/libs/core/tools/form/class.Form.php:563-565 | no predefined name starts with the custom marker, so each resolves to its own pattern |
| Helpers.Year | includes/libs/core/tools/form/class.Form.php:1020-1022 | a year the date pattern admits lies in 1900-2099 |
| Helpers.Month | includes/libs/core/tools/form/class.Form.php:1020-1023 | a month the date pattern admits lies in 1-12 |
| Helpers.Day | includes/libs/core/tools/form/class.Form.php:1020-1024 | a day the date pattern admits lies in 1-31 |
| Helpers.IsDate | includes/libs/core/tools/form/class.Form.php:1018-1031 | `isDate` as written accepts only text of the date pattern's shape |
| Helpers.IsDateDeviations | includes/libs/core/tools/form/class.Form.php:1025-1030 | `isDate` differs from the Gregorian calendar exactly on 31 November and on 29 February of 1900 and 2000 |
| Helpers.IsDateAcceptsNovember31 | includes/libs/core/tools/form/class.Form.php:1025-1026 | "2021-11-31" is accepted although it is not a date |
| Helpers.IsDateLeapCenturies | includes/libs/core/tools/form/class.Form.php:1030 | "2000-02-29" is rejected and "1900-02-29" accepted |
| Helpers.DaysInMonth | includes/libs/core/tools/form/class.Form.php:1025-1030 | every month the corrected check uses has 28 to 31 days |
| Helpers.CalendarDateDay31 | includes/libs/core/tools/form/class.Form.php:1025-1026 | the corrected check accepts the 31st exactly in the seven 31-day months |
| Helpers.CalendarDateLeapDay | includes/libs/core/tools/form/class.Form.php:1030 | the corrected check accepts 29 February exactly in Gregorian leap years |
| Helpers.ReplaceIdWithoutPlaceholder | includes/libs/core/tools/form/class.Form.php:656-661 | a file name template without `{id}` is left unchanged by the substitution |
| Helpers.ReplaceIdByPlaceholder | includes/libs/core/tools/form/class.Form.php:661 | substituting `{id}` by itself gives back the template |
| Helpers.RenamedPath | includes/libs/core/tools/form/class.Form.php:652-665 | a rename is requested exactly for an upload field with a bound value and a file name template containing `{id}`, and the new path lies under the upload root |
| Validation.PipelineCompose | includes/libs/core/tools/form/class.Form.php:541-549 | applying two modifier lists one after the other is applying their concatenation |
| Validation.Pipeline | includes/libs/core/tools/form/class.Form.php:541-549 | the modifiers are applied left to right, each to the previous one's result |
| Validation.Modified | includes/libs/core/tools/form/class.Form.php:543-548 | a missing or empty modifier list leaves the submission alone; otherwise the field is bound to the pipeline's result, a missing value entering as null |
| Validation.CaptchaStep | includes/libs/core/tools/form/class.Form.php:387-409 | the captcha branch: the value leaves the submission and the field is recorded as missing, as incorrect or as invalidating the challenge |
| Validation.Rebind | includes/libs/core/tools/form/class.Form.php:412-432 | the `type` switch (submit drops the value, an unchecked checkbox takes `valueOff`), then the empty-list default of an unset checkbox group |
| Validation.Prepare | includes/libs/core/tools/form/class.Form.php:410-432 | input modifiers, then rebinding, for every field that is not a captcha |
| Validation.UploadStep | includes/libs/core/tools/form/class.Form.php:433-441 | a required upload with nothing uploaded, stored or bound is recorded as missing |
| Validation.ConfirmStep | includes/libs/core/tools/form/class.Form.php:452-467 | an unbound target drops the value, a loosely different value records the pair, an equal one drops the value |
| Validation.TrimBound | includes/libs/core/tools/form/class.Form.php:470-479 | a bound string is trimmed, a bound list has its string elements trimmed, anything else is left alone |
| Validation.RequireStep | includes/libs/core/tools/form/class.Form.php:468-490 | the required-empty check after trimming, with the alternative exemption, then the rest of the field |
| Validation.PatternPhase | includes/libs/core/tools/form/class.Form.php:492-505 | the optional-empty, fatal, no-pattern and pattern cases, in that order |
| Validation.Shift | includes/libs/core/tools/form/class.Form.php:507-513 | `array_shift` drops the first element of a non-empty bound list and nothing else |
| Validation.ValueMatches | includes/libs/core/tools/form/class.Form.php:514-524 | a list matches when every element does, a string by `preg_match`, anything else never |
| Validation.MatchStep | includes/libs/core/tools/form/class.Form.php:506-532 | pruning, then the match: a failure drops the value and records the field; a success applies the output modifiers |
| Validation.CheckField | includes/libs/core/tools/form/class.Form.php:385-533 | one loop turn: the branches taken in the order of the source, the first that ends the field winning |
| Validation.CheckFields | includes/libs/core/tools/form/class.Form.php:385-533 | the loop over the fields in schema order, a fatal turn stopping it |
| Validation.Continue | includes/libs/core/tools/form/class.Form.php:385-533 | the loop from its first field on: that field's turn, then the rest |
| Validation.CheckFieldsTurn | includes/libs/core/tools/form/class.Form.php:385-533 | at any position a fatal turn is the outcome of the rest of the loop, and any other turn hands its state on to the following field |
| Validation.CheckFieldGrows | includes/libs/core/tools/form/class.Form.php:385-533 | a turn only appends to the failure lists, and clears the flag exactly when it appends |
| Validation.CheckFieldLocal | includes/libs/core/tools/form/class.Form.php:385-533 | a turn changes the bound submission only at its own field |
| Validation.CheckFieldsConsistent | includes/libs/core/tools/form/class.Form.php:379-534 | if the flag agrees with the failure lists before the loop, it still agrees after a loop that finishes |
| Validation.CheckFieldsVerdict | includes/libs/core/tools/form/class.Form.php:379-534 | a finished pass is valid exactly when all four failure lists are empty |
| Validation.UploadGate | includes/libs/core/tools/form/class.Form.php:433-441 | a required upload with no upload this pass and no stored or bound value is a required failure; otherwise it passes; nothing later is checked |
| Validation.RebindTypeSwitch | includes/libs/core/tools/form/class.Form.php:412-425 | a submit control loses its value; an unset or loosely different checkbox is bound to `valueOff` and a checked one kept; a field with no type, or another type, is untouched |
| Validation.RebindCheckboxGroup | includes/libs/core/tools/form/class.Form.php:426-432 | a checkbox group is always bound afterwards; without a type attribute an unset one gets the empty list and a bound one keeps its value |
| Validation.SubmitFallsThrough | includes/libs/core/tools/form/class.Form.php:416-419 | the `continue` inside the `switch` only leaves the `switch`: a submit control's value is dropped and the field still goes through the later checks, a required one being recorded as missing and an optional one only getting its output modifiers |
| Validation.UncheckedCheckbox | includes/libs/core/tools/form/class.Form.php:420-423 | an unchecked checkbox reaches the later checks already bound to its `valueOff` |
| Validation.CaptchaOutcome | includes/libs/core/tools/form/class.Form.php:387-409 | a captcha's value always leaves the submission, and exactly one of required, incorrect and challenge-invalidated happens, the last exactly for a non-empty, loosely equal answer |
| Validation.AlternativePair | includes/libs/core/tools/form/class.Form.php:442-451 | when both values are empty the pair is recorded and the form is invalid; when either is filled no alternative failure is recorded |
| Validation.ConfirmPair | includes/libs/core/tools/form/class.Form.php:452-467 | an unbound target drops the value; a differing value records the pair and invalidates; an equal value is dropped; nothing else is recorded |
| Validation.RequiredZeroIsPresent | includes/libs/core/tools/form/class.Form.php:468-490 | a required field whose trimmed value is integer 0 or "0" is never recorded as missing |
| Validation.ListPattern | includes/libs/core/tools/form/class.Form.php:514-531 | a list passes exactly when every element matches; otherwise the field is recorded as incorrect, its value removed and the form invalid |
| Validation.OptionalEmptySkipsPattern | includes/libs/core/tools/form/class.Form.php:492-496 | an empty optional field only gets its output modifiers and is never matched |
| Validation.RequiredMatchAccepted | includes/libs/core/tools/form/class.Form.php:468-532 | a required field with a pattern, no `type` attribute and no or empty modifier lists, as normalisation leaves them, whose untrimmable value matches, is accepted with nothing changed |
| Validation.ZeroIsAccepted | includes/libs/core/tools/form/class.Form.php:468-532 | a required `Numeric` field, normalised, submitted as "0" is accepted and keeps its value |
| Validation.MismatchedConfirmation | includes/libs/core/tools/form/class.Form.php:452-467 | in the normalised schema, a password and a differing confirmation leave the form invalid with exactly the confirm pair recorded and the password still bound |
| Validation.SubmitScenario | includes/libs/core/tools/form/class.Form.php:416-490 | a normalised required submit control loses its value and is recorded as missing, whatever was submitted |
| Validation.CheckboxScenario | includes/libs/core/tools/form/class.Form.php:420-496 | a normalised checkbox left unticked is bound to its `valueOff` "off" and accepted |
| Uploads.StoredName | includes/libs/core/tools/form/class.Form.php:340-343 | the stored name is empty exactly when the field declares no file name |
| Uploads.StoredNameShape | includes/libs/core/tools/form/class.Form.php:341 | a declared file name becomes "file" followed by decimal digits |
| Uploads.Destination | includes/libs/core/tools/form/class.Form.php:344-346 | every destination lies under the upload root |
| Uploads.MarkUploaded | includes/libs/core/tools/form/class.Form.php:365 | the field is flagged as uploaded, and a field the schema lacks is created |
| Uploads.MarkUploadedElsewhere | includes/libs/core/tools/form/class.Form.php:365 | flagging one field leaves every other field's specification alone |
| Uploads.OutcomeOf | includes/libs/core/tools/form/class.Form.php:338-365 | a field with a bound value is skipped; otherwise a refused type, a failed send or a stored upload id |
| Uploads.UploadStep | includes/libs/core/tools/form/class.Form.php:336-369 | one turn: the outcome is appended to its list, and a stored file binds its id and flags the field |
| Uploads.UploadAll | includes/libs/core/tools/form/class.Form.php:336-369 | the loop over the submitted files in order |
| Uploads.UploadLast | includes/libs/core/tools/form/class.Form.php:336-369 | the loop's last turn after the turns before it |
| Uploads.UploadStepOrdered | includes/libs/core/tools/form/class.Form.php:365 | a turn keeps the declaration order in step with the schema's keys, a created field coming last |
| Uploads.UploadAllOrdered | includes/libs/core/tools/form/class.Form.php:336-369 | the loop keeps the declaration order in step with the keys and only ever appends to it |
| Uploads.UploadStepLocal | includes/libs/core/tools/form/class.Form.php:336-369 | a turn touches only its own field's value and specification |
| Uploads.UploadAllFrame | includes/libs/core/tools/form/class.Form.php:336-369 | fields without a submitted file keep their value and specification |
| Uploads.UploadAllPartition | includes/libs/core/tools/form/class.Form.php:336-369 | with distinct field names, the type-refused, send-failed and stored lists are exactly the files whose outcome has that kind, in submission order |
| Uploads.UploadStepLists | includes/libs/core/tools/form/class.Form.php:351-367 | a turn appends its field to the list of its outcome and to no other |
| Uploads.UploadStepBinds | includes/libs/core/tools/form/class.Form.php:365-367 | a stored file binds its id and flags the field; any other outcome leaves value and schema as they were |
| Uploads.SentOnlyWhenAllowed | includes/libs/core/tools/form/class.Form.php:337-364 | a field already holding a value is skipped (and only such a field); a file is sent only after the type check passes |
| Errors.FieldLabel | includes/libs/core/tools/form/class.Form.php:626 | a field's label is its non-empty error label, otherwise its label |
| Errors.PairTargetLabelAsWritten | includes/libs/core/tools/form/class.Form.php:628 | the second field of a pair shows its error label whenever one is set, even an empty one |
| Errors.TargetLabel | includes/libs/core/tools/form/class.Form.php:628 | the label of a pair's second field: as line 628 has it, or taken the way the first field's is |
| Errors.RenderEntry | includes/libs/core/tools/form/class.Form.php:625-628 | a field renders as its bold label; a pair as the two bold labels joined by " &amp; " |
| Errors.LabelList | includes/libs/core/tools/form/class.Form.php:619-629 | the entries rendered in order, separated by ", " |
| Errors.PairTargetLabelLost | includes/libs/core/tools/form/class.Form.php:628 | after normalisation, a labelled field with no error label shows an empty label as the second field of a pair |
| Errors.RenderPairIsTwoFields | includes/libs/core/tools/form/class.Form.php:628 | in the corrected rendering a pair renders as its two fields rendered alone, joined by " &amp; " |
| Errors.RenderingsAgree | includes/libs/core/tools/form/class.Form.php:625-628 | an entry renders the same as written and corrected when it is a field, or a pair whose second field has no error label or a non-empty one |
| Errors.LabelListsAgree | includes/libs/core/tools/form/class.Form.php:621-629 | the label list is the same in both renderings when every pair's second field is labelled alike |
| Errors.RenderedAt | includes/libs/core/tools/form/class.Form.php:621-629 | the i-th rendered entry is entry i rendered on its own |
| Errors.LabelListIsJoin | includes/libs/core/tools/form/class.Form.php:621-629 | in either rendering, the label list is the rendered entries joined by ", " |
| Errors.Format | includes/libs/core/tools/form/class.Form.php:630-639 | the message format: for one entry the entry-specific key unless undefined, then the singular key; for several the plural key |
| Errors.FormatChoice | includes/libs/core/tools/form/class.Form.php:630-639 | one entry uses the entry-specific key, or the singular key when that is undefined; several entries use the plural key |
| Errors.ErrorFromArray | includes/libs/core/tools/form/class.Form.php:614-641 | an empty list gives "" and only then; otherwise one paragraph wrapping the formatted label list, in the rendering asked for |
| Errors.ErrorMessageEmpty | includes/libs/core/tools/form/class.Form.php:595-601 | the message is empty exactly when all six failure lists are empty |
| Errors.ErrorMessagesAgree | includes/libs/core/tools/form/class.Form.php:591-602 | the message as written equals the corrected one when the second field of every alternative and confirm pair has no error label or a non-empty one |
| Errors.ErrorMessage | includes/libs/core/tools/form/class.Form.php:595-601 | the six paragraphs for type-refused, send-failed, alternative, confirm, required and incorrect failures, concatenated in that order |
| FormEngine.CleanAll | includes/libs/core/tools/form/class.Form.php:269-288 | every field is normalised and no field is added or removed |
| FormEngine.CleanAllIdempotent | includes/libs/core/tools/form/class.Form.php:245-247 | normalising the schema a second time changes nothing |
| FormEngine.Cleaned | includes/libs/core/tools/form/class.Form.php:245-247 | the schema is normalised unless that has already happened |
| FormEngine.CleanedMismatchSchema | includes/libs/core/tools/form/class.Form.php:269-288 | `cleanData` on the declared confirmation schema gives the normalised schema the confirmation scenario runs on |
| FormEngine.Relabelled | includes/libs/core/tools/form/class.Form.php:387-389 | each visited captcha field is labelled "Captcha", in visiting order |
| FormEngine.RelabelledEffect | includes/libs/core/tools/form/class.Form.php:387-389 | the loop labels each visited captcha field "Captcha" and leaves everything else alone |
| FormEngine.RelabelledKeys | includes/libs/core/tools/form/class.Form.php:387-389 | relabelling adds and removes no field |
| FormEngine.Without | includes/libs/core/tools/form/class.Form.php:1043 | the order loses exactly the removed name |
| FormEngine.WithoutIsFilter | includes/libs/core/tools/form/class.Form.php:1043 | removing a name is a filter: names other than it are kept, it is dropped, and the result distributes over concatenation, so the other names keep their relative order |
| FormEngine.WithoutOrdered | includes/libs/core/tools/form/class.Form.php:1039-1044 | removing a field keeps the declaration order in step with the keys |
| FormEngine.NumericAsString | includes/libs/core/tools/form/class.Form.php:715 | an integer is injected as its decimal string, anything else as it is |
| FormEngine.InjectOne | includes/libs/core/tools/form/class.Form.php:702-717 | one value injected into a declared, non-empty field: a checkbox checked or unchecked by loose equality, another field given the value attribute |
| FormEngine.InjectAll | includes/libs/core/tools/form/class.Form.php:702-718 | the values injected one after another, in order |
| FormEngine.InjectOneEffect | includes/libs/core/tools/form/class.Form.php:702-717 | a checkbox is checked exactly when its value loosely equals the injected one; another declared field gets the value attribute; unknown or empty fields and all other fields are untouched |
| FormEngine.InjectAllFrame | includes/libs/core/tools/form/class.Form.php:698-719 | injecting adds and removes no field and leaves unnamed fields alone |
| FormEngine.Form.constructor | includes/libs/core/tools/form/class.Form.php:204-208 | a new form has its name, an empty schema, no submission and empty lists |
| FormEngine.Form.CleanData | includes/libs/core/tools/form/class.Form.php:243-289 | the schema is normalised on the first call only, and the declaration order is kept |
| FormEngine.Form.SetProperty | includes/libs/core/tools/form/class.Form.php:230-238 | for a declared field the attribute is set and `true` returned; otherwise nothing changes and `false` is returned |
| FormEngine.Form.SetInput | includes/libs/core/tools/form/class.Form.php:1053-1056 | the field is stored, and a new name is appended to the declaration order |
| FormEngine.Form.UnsetInput | includes/libs/core/tools/form/class.Form.php:1039-1044 | a declared field is removed from the schema and the order becomes the old order without that name; a missing field changes nothing |
| FormEngine.Form.GetInput | includes/libs/core/tools/form/class.Form.php:1063-1068 | the specification is returned exactly for a declared, non-empty field |
| FormEngine.Form.InjectValues | includes/libs/core/tools/form/class.Form.php:698-719 | the schema becomes the values injected one after another, in order |
| FormEngine.Form.ApplyModifiers | includes/libs/core/tools/form/class.Form.php:541-549 | the bound value is replaced by the modifier pipeline's result |
| FormEngine.Form.RebindControl | includes/libs/core/tools/form/class.Form.php:412-432 | the submission becomes `Rebind` of it, whose submit, checkbox and checkbox-group effects `RebindTypeSwitch`, `RebindCheckboxGroup` and `SubmitFallsThrough` state |
| FormEngine.Form.TrimInput | includes/libs/core/tools/form/class.Form.php:470-478 | a string value is trimmed, a list element by element |
| FormEngine.Form.ShiftInput | includes/libs/core/tools/form/class.Form.php:512 | a non-empty list loses its first element |
| FormEngine.Form.CheckCaptcha | includes/libs/core/tools/form/class.Form.php:387-409 | the captcha branch as the pure captcha step describes it |
| FormEngine.Form.CheckConfirm | includes/libs/core/tools/form/class.Form.php:452-467 | the confirm branch as the pure confirm step describes it |
| FormEngine.Form.CheckPattern | includes/libs/core/tools/form/class.Form.php:506-532 | pruning, matching and the output modifiers as the pure match step describes them |
| FormEngine.Form.CheckRest | includes/libs/core/tools/form/class.Form.php:492-532 | the optional-empty, fatal, no-pattern and pattern cases |
| FormEngine.Form.CheckRequired | includes/libs/core/tools/form/class.Form.php:468-532 | trimming, the required-empty check and the rest of the field |
| FormEngine.Form.CheckInput | includes/libs/core/tools/form/class.Form.php:385-533 | one loop turn ends in the state, or the fatal stop, that the pure `CheckField` gives |
| FormEngine.Form.RelabelCaptcha | includes/libs/core/tools/form/class.Form.php:387-389 | a captcha field is labelled "Captcha" and any other field is left alone |
| FormEngine.Form.VisitField | includes/libs/core/tools/form/class.Form.php:385-533 | visiting field i relabels it and either stops exactly as the rest of the loop would, or leaves a state from which the rest of the loop has the same outcome |
| FormEngine.Form.CheckInputs | includes/libs/core/tools/form/class.Form.php:377-534 | the failure lists are reset and the fields visited in order; the final state, or the fatal field, is what `CheckFields` computes from the state before the call; valid exactly when no list is filled |
| FormEngine.Form.PerformUploads | includes/libs/core/tools/form/class.Form.php:315-370 | the three upload lists are reset; submission, schema, order and lists end as `UploadAll` computes |
| FormEngine.Form.UploadFile | includes/libs/core/tools/form/class.Form.php:336-369 | one file is skipped, refused, failed or stored, as `UploadStep` says |
| FormEngine.Form.GetErrorFromArray | includes/libs/core/tools/form/class.Form.php:614-641 | the paragraph `ErrorFromArray` describes with the pair rendering as written, built by the loop over the entries |
| FormEngine.Form.GetError | includes/libs/core/tools/form/class.Form.php:591-602 | before any submission "" and no change; otherwise the six paragraphs in order with the pair rendering as written, also stored as the form's error |
| FormEngine.Form.IsValid | includes/libs/core/tools/form/class.Form.php:298-308 | the schema is normalised and the error cleared; a missing or empty submission is invalid and leaves the verdict, the four failure lists, the three upload lists, the submission and the declaration order as they were; otherwise uploads then checks run, and the verdict is true exactly when no failure list is filled |
| FormEngine.Form.Submit | includes/libs/core/tools/form/class.Form.php:304-307 | binding the submission, the upload pass and the check pass, ending as `UploadAll` followed by `CheckFields` computes |
| FormEngine.MatchesPattern | includes/libs/core/tools/form/class.Form.php:514-524 | the loop over a list's elements decides the match exactly as `ValueMatches` does |

## Left out

- The constructor's JSON load: the schema file, its parse errors and the exceptions they throw are file I/O. The model starts from the empty schema that `new Form($name, false)` gives.
- Rendering (`prepareToView`, `display` and the other view methods) is not part of this model. Neither are the label translation branch of `cleanData`, whose switch is constantly off, and `Dictionary::term` beyond its use as a parameter.
- `setUploadFileName`: only the new paths and the `{id}` substitution are modelled (`RenamedPath`, `ReplaceId`). The `ModelUpload::renameById` call, the second loop over `uploads` (`renameFile`, `renameFolder`) and the return value have side effects in storage and the database.
- Reshaping `$_FILES` into per-field entries (lines 319-335) is not modelled: the files are given already reshaped. The class's `files` property, which only holds that reshaping, is left out too.
- The system the form talks to: the upload class, the captcha session (`unsetSessionVar` is reported as the list of invalidated fields), `call_user_func` of modifiers, and `preg_match` on a non-empty pattern. All of them are parameters, so their behaviour is not modelled. Exceptions from a modifier are not modelled.
- Uploads.StoredName: `rand(0, 999999)` is a parameter drawing any natural number. The model does not bound it by 999999.
- PhpValue.LooseEquals: PHP 8's loose `==` is simplified. Integers compare with their decimal strings, and there is no numeric-string or float comparison. `is_numeric` is true only of integers.
- Floating point values and PHP 8 `TypeError`s (for example `trim()` on a non-string) are not modelled.
- A submission that is not an array is not modelled: `$_POST[name]` is a map or missing.
- Reference semantics of `$this->post = &$_POST[...]` are not modelled: the submission is copied into the form.

## Findings

| source | as written | input that shows it | evidently intended | confidence | as-written member | corrected member |
|---|---|---|---|---|---|---|
| includes/libs/core/tools/form/class.Form.php:1025-1026 | the list of 30-day months is 4, 6, 9 and 2, so November is missing | "2021-11-31" is accepted | 31 November is rejected like the other 30-day months | high, not executed | Helpers.IsDateAcceptsNovember31 | Helpers.CalendarDateDay31 |
| includes/libs/core/tools/form/class.Form.php:1030 | the leap test is `y % 4 == 0 && (y % 100 != 0 \|\| y % 400 != 0)` | "2000-02-29" is rejected, "1900-02-29" is accepted | the Gregorian rule `y % 400 == 0` | high, not executed | Helpers.IsDateLeapCenturies | Helpers.CalendarDateLeapDay |
| includes/libs/core/tools/form/class.Form.php:628 | the second field of a pair takes its error label whenever it is set, without the non-empty test the first field has | a confirm pair whose target has label "Password" and no error label: after `cleanData` the target renders as `<b></b>` | both fields of a pair take the label the same way | medium, not executed | Errors.PairTargetLabelLost | Errors.RenderPairIsTwoFields |

`Helpers.IsDate` models `isDate` as written. `Helpers.IsCalendarDate` is the
corrected check. `Errors.RenderEntry` takes a `Rendering`. With `AsWritten` it renders a pair as
line 628 does, and `FormEngine.Form.GetErrorFromArray` and
`FormEngine.Form.GetError` use that rendering. With `Intended` it renders both
fields of a pair the same way. `Errors.ErrorMessagesAgree` says when the two
messages coincide.

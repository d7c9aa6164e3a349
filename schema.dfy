/**
 * The field specifications of a form and the defaults `cleanData` fills in.
 *
 * A field specification is a PHP associative array read from the form's
 * declaration. Here it is a record whose optional components are `None`
 * exactly when the key is unset (absent or null); keys the engine never
 * interprets are kept in `others`.
 */
module Schema {
  import opened PhpValue

  const TagCaptcha: string := "captcha"
  const TagRichEditor: string := "richeditor"
  const TagDatePicker: string := "datepicker"
  const TagColorPicker: string := "colorpicker"
  const TagRadioGroup: string := "radiogroup"
  const TagUpload: string := "upload"
  const TagCheckboxGroup: string := "checkboxgroup"
  const TagInput: string := "input"
  const TagTextarea: string := "textarea"
  const TagSelect: string := "select"

  /** Allowed extensions of an upload field that declares none. */
  const DefaultFileTypes: string := "txt|rtf|pdf|doc|docx|xls|xlsx|csv|ppt|pptx"
  /** Challenge length of a captcha field that declares none. */
  const DefaultCaptchaLength: int := 5

  datatype FieldSpec = FieldSpec(
    tag: Option<string>,
    labelText: Option<string>,
    errorLabel: Option<string>,
    require: Option<bool>,
    attributes: Option<map<string, Value>>,
    regExp: Option<string>,
    inputModifiers: Option<seq<string>>,
    outputModifiers: Option<seq<string>>,
    fileType: Option<string>,
    length: Option<int>,
    parameters: Option<map<string, Value>>,
    isAlternativeFor: Option<string>,
    isConfirmFor: Option<string>,
    fileName: Option<string>,
    folder: Option<string>,
    resize: Option<(int, int)>,
    isUpload: bool,
    others: map<string, Value>)

  /** The specification with no key at all (PHP's `array()`). */
  const EmptySpec: FieldSpec :=
    FieldSpec(None, None, None, None, None, None, None, None, None, None, None,
              None, None, None, None, None, false, map[])

  /** `order` is the iteration order of a PHP array with the keys `keys`: every key once. */
  ghost predicate Ordered(order: seq<string>, keys: set<string>)
  {
    && (forall i, j :: 0 <= i < j < |order| ==> order[i] != order[j])
    && (forall n :: n in keys <==> n in order)
  }

  /** The specification stored under `name`, or the empty one when there is none
      (reading a missing entry of a PHP array gives null). */
  function SpecOf(data: map<string, FieldSpec>, name: string): (f: FieldSpec)
    ensures name !in data ==> f == EmptySpec
  {
    if name in data then data[name] else EmptySpec
  }

  predicate HasTag(f: FieldSpec, t: string)
  {
    f.tag == Some(t)
  }

  /** `if ($data["require"])`: only a set, true `require` makes a field required. */
  predicate Required(f: FieldSpec)
  {
    f.require == Some(true)
  }

  /** `$data["attributes"][$key]`, null when either level is missing. */
  function Attribute(f: FieldSpec, key: string): Value
  {
    match f.attributes
    case None => Null
    case Some(a) => Lookup(a, key)
  }

  /** `$data["attributes"][$key] = $v`, creating the attribute array when missing. */
  function WithAttribute(f: FieldSpec, key: string, v: Value): (g: FieldSpec)
    ensures g.attributes.Some? && Attribute(g, key) == v
    ensures forall k :: k != key ==> Attribute(g, k) == Attribute(f, k)
    ensures g == f.(attributes := g.attributes)
  {
    var a := if f.attributes.Some? then f.attributes.value else map[];
    f.(attributes := Some(a[key := v]))
  }

  /** `unset($data["attributes"][$key])`; a missing attribute array stays missing. */
  function WithoutAttribute(f: FieldSpec, key: string): (g: FieldSpec)
    ensures Attribute(g, key) == Null
    ensures forall k :: k != key ==> Attribute(g, k) == Attribute(f, k)
    ensures g == f.(attributes := g.attributes)
    ensures g.attributes.Some? <==> f.attributes.Some?
  {
    match f.attributes
    case None => f
    case Some(a) => f.(attributes := Some(a - {key}))
  }

  /** `if (!isset($input[$n])) $input[$n] = $v;` */
  function OrDefault<T>(o: Option<T>, d: T): (r: Option<T>)
    ensures r.Some?
    ensures o.Some? ==> r == o
    ensures o.None? ==> r == Some(d)
  {
    if o.Some? then o else Some(d)
  }

  /** The placeholder that replaces the error label: only when the label is
      empty and the attributes carry a placeholder. */
  function Placeholder(labelText: Option<string>, attributes: Option<map<string, Value>>): Option<string>
  {
    if labelText.Some? && Empty(Str(labelText.value)) && attributes.Some?
       && IsSet(attributes.value, "placeholder")
    then Some(ToText(attributes.value["placeholder"]))
    else None
  }

  /** Every key that `cleanData` guarantees afterwards is set. */
  predicate Normalised(g: FieldSpec)
  {
    && g.errorLabel.Some? && g.labelText.Some? && g.require.Some? && g.attributes.Some?
    && g.regExp.Some? && g.inputModifiers.Some? && g.outputModifiers.Some?
    && (HasTag(g, TagUpload) ==> g.fileType.Some?)
    && (HasTag(g, TagCaptcha) ==> g.length.Some?)
    && (HasTag(g, TagSelect) ==> g.parameters.Some?)
  }

  /** What one pass of `cleanData`'s loop does to one field: the general
      defaults, then the tag-specific ones, then the placeholder rule (labels are
      not translated: the translation switch is constantly off). */
  function CleanSpec(f: FieldSpec): (g: FieldSpec)
    ensures Normalised(g)
  {
    var labelText := OrDefault(f.labelText, "");
    var attributes := OrDefault(f.attributes, map[]);
    var ph := Placeholder(labelText, attributes);
    FieldSpec(
      f.tag,
      labelText,
      if ph.Some? then ph else OrDefault(f.errorLabel, ""),
      OrDefault(f.require, false),
      attributes,
      OrDefault(f.regExp, ""),
      OrDefault(f.inputModifiers, []),
      OrDefault(f.outputModifiers, []),
      if HasTag(f, TagUpload) then OrDefault(f.fileType, DefaultFileTypes) else f.fileType,
      if HasTag(f, TagCaptcha) then OrDefault(f.length, DefaultCaptchaLength) else f.length,
      if HasTag(f, TagSelect) then OrDefault(f.parameters, map[]) else f.parameters,
      f.isAlternativeFor, f.isConfirmFor, f.fileName, f.folder, f.resize, f.isUpload, f.others)
  }

  /** Keys that were set keep their values (the error label is the one exception,
      see CleanSpecErrorLabel). */
  lemma CleanSpecKeepsSetKeys(f: FieldSpec)
    ensures var g := CleanSpec(f);
      && (f.labelText.Some? ==> g.labelText == f.labelText)
      && (f.require.Some? ==> g.require == f.require)
      && (f.attributes.Some? ==> g.attributes == f.attributes)
      && (f.regExp.Some? ==> g.regExp == f.regExp)
      && (f.inputModifiers.Some? ==> g.inputModifiers == f.inputModifiers)
      && (f.outputModifiers.Some? ==> g.outputModifiers == f.outputModifiers)
      && (f.fileType.Some? ==> g.fileType == f.fileType)
      && (f.length.Some? ==> g.length == f.length)
      && (f.parameters.Some? ==> g.parameters == f.parameters)
  {
  }

  /** Missing keys take the documented defaults. */
  lemma CleanSpecFillsDefaults(f: FieldSpec)
    ensures var g := CleanSpec(f);
      && (f.labelText.None? ==> g.labelText == Some(""))
      && (f.require.None? ==> g.require == Some(false))
      && (f.attributes.None? ==> g.attributes == Some(map[]))
      && (f.regExp.None? ==> g.regExp == Some(""))
      && (f.inputModifiers.None? ==> g.inputModifiers == Some([]))
      && (f.outputModifiers.None? ==> g.outputModifiers == Some([]))
      && (HasTag(f, TagUpload) && f.fileType.None? ==> g.fileType == Some(DefaultFileTypes))
      && (HasTag(f, TagCaptcha) && f.length.None? ==> g.length == Some(DefaultCaptchaLength))
      && (HasTag(f, TagSelect) && f.parameters.None? ==> g.parameters == Some(map[]))
  {
  }

  /** The error label is kept (or defaulted to "") unless the label is empty and a
      placeholder is declared, in which case the placeholder replaces it. */
  lemma CleanSpecErrorLabel(f: FieldSpec)
    ensures var g := CleanSpec(f);
      var ph := Placeholder(g.labelText, g.attributes);
      && (ph.Some? ==> g.errorLabel == ph)
      && (ph.None? ==> g.errorLabel == OrDefault(f.errorLabel, ""))
  {
  }

  /** The keys `cleanData` does not know about are left alone. */
  lemma CleanSpecKeepsOtherKeys(f: FieldSpec)
    ensures var g := CleanSpec(f);
      && g.tag == f.tag && g.others == f.others && g.isUpload == f.isUpload
      && g.isAlternativeFor == f.isAlternativeFor && g.isConfirmFor == f.isConfirmFor
      && g.fileName == f.fileName && g.folder == f.folder && g.resize == f.resize
  {
  }

  /** Normalising an already normalised field changes nothing. */
  lemma CleanSpecIdempotent(f: FieldSpec)
    ensures CleanSpec(CleanSpec(f)) == CleanSpec(f)
  {
  }
}

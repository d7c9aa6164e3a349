/**
 * The error message of a failed submission (`getErrorFromArray`, `getError`).
 *
 * Each failure list becomes one paragraph: the labels of the listed fields,
 * comma separated, put into a message looked up in the dictionary under a key
 * chosen by the number of entries. The dictionary and `sprintf` are
 * collaborators, passed in as a `Dictionary`.
 */
module Errors {
  import opened PhpValue
  import opened Schema

  /** An entry of a failure list: one field, or a (field, target) pair. */
  datatype Entry = Field(name: string) | Pair(first: string, second: string)

  /** `term(key)` is the dictionary's text for a key, `undefined` the text it returns
      for an unknown key, `sprintf(format, arg)` the formatting of one string argument. */
  datatype Dictionary = Dictionary(term: string -> string, undefined: string,
                                   sprintf: (string, string) -> string)

  function Fields(names: seq<string>): (es: seq<Entry>)
    ensures |es| == |names| && forall i :: 0 <= i < |es| ==> es[i] == Field(names[i])
  {
    seq(|names|, i requires 0 <= i < |names| => Field(names[i]))
  }

  function Pairs(ps: seq<(string, string)>): (es: seq<Entry>)
    ensures |es| == |ps| && forall i :: 0 <= i < |es| ==> es[i] == Pair(ps[i].0, ps[i].1)
  {
    seq(|ps|, i requires 0 <= i < |ps| => Pair(ps[i].0, ps[i].1))
  }

  /** A field's label in a message: its error label when that is set and not
      empty, otherwise its label (nothing for a field the schema lacks). */
  function FieldLabel(data: map<string, FieldSpec>, n: string): (r: string)
    ensures var f := SpecOf(data, n);
      && (f.errorLabel.Some? && !Empty(Str(f.errorLabel.value)) ==> r == f.errorLabel.value)
      && (!(f.errorLabel.Some? && !Empty(Str(f.errorLabel.value))) ==>
            r == if f.labelText.Some? then f.labelText.value else "")
  {
    var f := SpecOf(data, n);
    if f.errorLabel.Some? && !Empty(Str(f.errorLabel.value)) then f.errorLabel.value
    else if f.labelText.Some? then f.labelText.value
    else ""
  }

  /** The label of a pair's second field as the source renders it: the error
      label whenever it is set, even when it is empty. */
  function PairTargetLabelAsWritten(data: map<string, FieldSpec>, n: string): (r: string)
    ensures SpecOf(data, n).errorLabel.Some? ==> r == SpecOf(data, n).errorLabel.value
  {
    var f := SpecOf(data, n);
    if f.errorLabel.Some? then f.errorLabel.value
    else if f.labelText.Some? then f.labelText.value
    else ""
  }

  function Bold(s: string): string
  {
    "<b>" + s + "</b>"
  }

  const PairSeparator: string := " &amp; "

  /** How the second field of a pair is labelled: as the source does it, or
      like every other field (the evidently intended rendering). */
  datatype Rendering = AsWritten | Intended

  function TargetLabel(data: map<string, FieldSpec>, n: string, mode: Rendering): string
  {
    if mode == AsWritten then PairTargetLabelAsWritten(data, n) else FieldLabel(data, n)
  }

  /** One entry of the label list: a field in bold, or a pair as two bold labels. */
  function RenderEntry(data: map<string, FieldSpec>, e: Entry, mode: Rendering): string
  {
    match e
    case Field(n) => Bold(FieldLabel(data, n))
    case Pair(a, b) => Bold(FieldLabel(data, a)) + PairSeparator + Bold(TargetLabel(data, b, mode))
  }

  /** In the intended rendering a pair renders as its two fields rendered alone,
      joined by the separator. */
  lemma RenderPairIsTwoFields(data: map<string, FieldSpec>, a: string, b: string, mode: Rendering)
    ensures RenderEntry(data, Pair(a, b), Intended)
              == RenderEntry(data, Field(a), mode) + PairSeparator + RenderEntry(data, Field(b), mode)
  {
  }

  /** After `cleanData` every field has an error label, "" unless declared; the
      source then renders the second field of a pair with an empty label even
      though the field has a label. */
  lemma PairTargetLabelLost()
    ensures var data := map["pwd" := CleanSpec(EmptySpec.(labelText := Some("Password")))];
      && FieldLabel(data, "pwd") == "Password"
      && PairTargetLabelAsWritten(data, "pwd") == ""
      && RenderEntry(data, Pair("pwd", "pwd"), AsWritten)
           != RenderEntry(data, Field("pwd"), AsWritten) + PairSeparator + RenderEntry(data, Field("pwd"), AsWritten)
  {
    var data := map["pwd" := CleanSpec(EmptySpec.(labelText := Some("Password")))];
    assert SpecOf(data, "pwd").errorLabel == Some("");
    assert Bold("") != Bold("Password");
    var lhs := RenderEntry(data, Pair("pwd", "pwd"), AsWritten);
    var rhs := RenderEntry(data, Field("pwd"), AsWritten) + PairSeparator + RenderEntry(data, Field("pwd"), AsWritten);
    assert |lhs| != |rhs|;
  }

  /** The field's error label is unset or not empty, so both renderings label it alike. */
  predicate LabelledAlike(data: map<string, FieldSpec>, n: string)
  {
    SpecOf(data, n).errorLabel.None? || !Empty(Str(SpecOf(data, n).errorLabel.value))
  }

  /** The two renderings differ only where a pair's second field has an empty error label. */
  lemma RenderingsAgree(data: map<string, FieldSpec>, e: Entry)
    requires e.Pair? ==> LabelledAlike(data, e.second)
    ensures RenderEntry(data, e, AsWritten) == RenderEntry(data, e, Intended)
  {
  }

  /** The label list as `getErrorFromArray`'s loop builds it. */
  function LabelList(data: map<string, FieldSpec>, es: seq<Entry>, mode: Rendering): string
    decreases |es|
  {
    if es == [] then ""
    else if |es| == 1 then RenderEntry(data, es[0], mode)
    else LabelList(data, es[..|es| - 1], mode) + ", " + RenderEntry(data, es[|es| - 1], mode)
  }

  /** Every pair's second field is labelled alike by both renderings. */
  predicate TargetsLabelledAlike(data: map<string, FieldSpec>, es: seq<Entry>)
  {
    forall i :: 0 <= i < |es| && es[i].Pair? ==> LabelledAlike(data, es[i].second)
  }

  /** When every pair's second field is labelled alike, so are the label lists. */
  lemma {:induction false} LabelListsAgree(data: map<string, FieldSpec>, es: seq<Entry>)
    requires TargetsLabelledAlike(data, es)
    ensures LabelList(data, es, AsWritten) == LabelList(data, es, Intended)
    decreases |es|
  {
    if es != [] {
      var last := es[|es| - 1];
      RenderingsAgree(data, last);
      if |es| == 1 {
        assert LabelList(data, es, AsWritten) == RenderEntry(data, es[0], AsWritten);
        assert LabelList(data, es, Intended) == RenderEntry(data, es[0], Intended);
      } else {
        var init := es[..|es| - 1];
        assert TargetsLabelledAlike(data, init) by {
          forall i | 0 <= i < |init| && init[i].Pair? ensures LabelledAlike(data, init[i].second) {
            assert init[i] == es[i];
          }
        }
        LabelListsAgree(data, init);
        assert LabelList(data, es, AsWritten) == LabelList(data, init, AsWritten) + ", " + RenderEntry(data, last, AsWritten);
        assert LabelList(data, es, Intended) == LabelList(data, init, Intended) + ", " + RenderEntry(data, last, Intended);
      }
    }
  }

  /** Reference definition: the strings separated by `sep`. */
  function Join(xs: seq<string>, sep: string): string
    decreases |xs|
  {
    if xs == [] then ""
    else if |xs| == 1 then xs[0]
    else xs[0] + sep + Join(xs[1..], sep)
  }

  lemma {:induction false} JoinSnoc(xs: seq<string>, y: string, sep: string)
    requires xs != []
    ensures Join(xs + [y], sep) == Join(xs, sep) + sep + y
    decreases |xs|
  {
    if |xs| == 1 {
      assert (xs + [y])[1..] == [y];
    } else {
      assert (xs + [y])[1..] == xs[1..] + [y];
      JoinSnoc(xs[1..], y, sep);
    }
  }

  /** The entries rendered one by one, in order. */
  function Rendered(data: map<string, FieldSpec>, es: seq<Entry>, mode: Rendering): (xs: seq<string>)
    ensures |xs| == |es|
    decreases |es|
  {
    if es == [] then [] else Rendered(data, es[..|es| - 1], mode) + [RenderEntry(data, es[|es| - 1], mode)]
  }

  /** The i-th rendered string is the i-th entry rendered. */
  lemma {:induction false} RenderedAt(data: map<string, FieldSpec>, es: seq<Entry>, mode: Rendering)
    ensures forall i :: 0 <= i < |es| ==> Rendered(data, es, mode)[i] == RenderEntry(data, es[i], mode)
    decreases |es|
  {
    if es != [] {
      var init := es[..|es| - 1];
      RenderedAt(data, init, mode);
      forall i | 0 <= i < |init| ensures init[i] == es[i] {
      }
    }
  }

  /** The label list is the rendered entries joined by ", ", in either rendering. */
  lemma {:induction false} LabelListIsJoin(data: map<string, FieldSpec>, es: seq<Entry>, mode: Rendering)
    ensures LabelList(data, es, mode) == Join(Rendered(data, es, mode), ", ")
    decreases |es|
  {
    if |es| == 1 {
      assert Rendered(data, es, mode) == [] + [RenderEntry(data, es[0], mode)];
    } else if |es| > 1 {
      var init := es[..|es| - 1];
      var last := RenderEntry(data, es[|es| - 1], mode);
      assert LabelList(data, es, mode) == LabelList(data, init, mode) + ", " + last;
      LabelListIsJoin(data, init, mode);
      JoinSnoc(Rendered(data, init, mode), last, ", ");
    }
  }

  /** PHP's string conversion of the first entry, appended to the singular key. */
  function KeySuffix(e: Entry): string
  {
    match e
    case Field(n) => n
    case Pair(_, _) => "Array"
  }

  /** The message format: one entry tries the entry-specific key and falls back
      to the singular key; several entries use the plural key. */
  function Format(dict: Dictionary, es: seq<Entry>, singular: string, plural: string): string
  {
    if |es| == 1 then
      var t := dict.term(singular + KeySuffix(es[0]));
      if t == dict.undefined then dict.term(singular) else t
    else dict.term(plural)
  }

  lemma FormatChoice(dict: Dictionary, es: seq<Entry>, singular: string, plural: string)
    ensures var r := Format(dict, es, singular, plural);
      && (|es| == 1 && dict.term(singular + KeySuffix(es[0])) != dict.undefined ==>
            r == dict.term(singular + KeySuffix(es[0])))
      && (|es| == 1 && dict.term(singular + KeySuffix(es[0])) == dict.undefined ==> r == dict.term(singular))
      && (|es| != 1 ==> r == dict.term(plural))
  {
  }

  /** `getErrorFromArray`: nothing for an empty list, otherwise one paragraph. */
  function ErrorFromArray(dict: Dictionary, data: map<string, FieldSpec>, es: seq<Entry>,
                          singular: string, plural: string, mode: Rendering): (r: string)
    ensures es == [] <==> r == ""
    ensures es != [] ==> r == "<p>" + dict.sprintf(Format(dict, es, singular, plural), LabelList(data, es, mode)) + "</p>"
  {
    if es == [] then "" else "<p>" + dict.sprintf(Format(dict, es, singular, plural), LabelList(data, es, mode)) + "</p>"
  }

  // Message keys, singular and plural, of the six failure lists.
  const KeyMimeType: string := "global.forms.errorMimeType"
  const KeyMimeTypes: string := "global.forms.errorMimeTypes"
  const KeyUploadSend: string := "global.forms.errorUploadSend"
  const KeyUploadsSend: string := "global.forms.errorUploadsSend"
  const KeyWithAlternative: string := "global.forms.errorInputWithAlternative"
  const KeysWithAlternative: string := "global.forms.errorInputsWithAlternative"
  const KeyWithConfirm: string := "global.forms.errorInputWithConfirm"
  const KeysWithConfirm: string := "global.forms.errorInputsWithConfirm"
  const KeyRequire: string := "global.forms.errorInputRequire"
  const KeysRequire: string := "global.forms.errorInputsRequire"
  const KeyIncorrect: string := "global.forms.errorInputIncorrect"
  const KeysIncorrect: string := "global.forms.errorInputsIncorrect"

  /** The six failure lists, in the order `getError` reports them. */
  datatype Failures = Failures(
    typeRejected: seq<string>, sendFailed: seq<string>,
    alternative: seq<(string, string)>, confirm: seq<(string, string)>,
    require: seq<string>, incorrect: seq<string>)

  predicate NoFailure(fs: Failures)
  {
    fs.typeRejected == [] && fs.sendFailed == [] && fs.alternative == [] && fs.confirm == []
    && fs.require == [] && fs.incorrect == []
  }

  /** `getError` once a submission was read: the six paragraphs in order. */
  function ErrorMessage(dict: Dictionary, data: map<string, FieldSpec>, fs: Failures, mode: Rendering): (r: string)
  {
    ErrorFromArray(dict, data, Fields(fs.typeRejected), KeyMimeType, KeyMimeTypes, mode)
    + ErrorFromArray(dict, data, Fields(fs.sendFailed), KeyUploadSend, KeyUploadsSend, mode)
    + ErrorFromArray(dict, data, Pairs(fs.alternative), KeyWithAlternative, KeysWithAlternative, mode)
    + ErrorFromArray(dict, data, Pairs(fs.confirm), KeyWithConfirm, KeysWithConfirm, mode)
    + ErrorFromArray(dict, data, Fields(fs.require), KeyRequire, KeysRequire, mode)
    + ErrorFromArray(dict, data, Fields(fs.incorrect), KeyIncorrect, KeysIncorrect, mode)
  }

  /** The message is empty exactly when every list is. */
  lemma ErrorMessageEmpty(dict: Dictionary, data: map<string, FieldSpec>, fs: Failures, mode: Rendering)
    ensures ErrorMessage(dict, data, fs, mode) == "" <==> NoFailure(fs)
  {
    assert Fields(fs.typeRejected) == [] <==> fs.typeRejected == [];
    assert Fields(fs.sendFailed) == [] <==> fs.sendFailed == [];
    assert Pairs(fs.alternative) == [] <==> fs.alternative == [];
    assert Pairs(fs.confirm) == [] <==> fs.confirm == [];
    assert Fields(fs.require) == [] <==> fs.require == [];
    assert Fields(fs.incorrect) == [] <==> fs.incorrect == [];
  }

  /** A list of single fields renders alike in both renderings. */
  lemma FieldsLabelledAlike(data: map<string, FieldSpec>, names: seq<string>)
    ensures TargetsLabelledAlike(data, Fields(names))
  {
  }

  /** A list of pairs whose second fields are all labelled alike. */
  lemma PairsLabelledAlike(data: map<string, FieldSpec>, ps: seq<(string, string)>)
    requires forall i :: 0 <= i < |ps| ==> LabelledAlike(data, ps[i].1)
    ensures TargetsLabelledAlike(data, Pairs(ps))
  {
  }

  /** The source's message and the intended one are the same unless some
      alternative or confirm target has an empty error label. */
  lemma ErrorMessagesAgree(dict: Dictionary, data: map<string, FieldSpec>, fs: Failures)
    requires forall i :: 0 <= i < |fs.alternative| ==> LabelledAlike(data, fs.alternative[i].1)
    requires forall i :: 0 <= i < |fs.confirm| ==> LabelledAlike(data, fs.confirm[i].1)
    ensures ErrorMessage(dict, data, fs, AsWritten) == ErrorMessage(dict, data, fs, Intended)
  {
    FieldsLabelledAlike(data, fs.typeRejected);
    LabelListsAgree(data, Fields(fs.typeRejected));
    FieldsLabelledAlike(data, fs.sendFailed);
    LabelListsAgree(data, Fields(fs.sendFailed));
    PairsLabelledAlike(data, fs.alternative);
    LabelListsAgree(data, Pairs(fs.alternative));
    PairsLabelledAlike(data, fs.confirm);
    LabelListsAgree(data, Pairs(fs.confirm));
    FieldsLabelledAlike(data, fs.require);
    LabelListsAgree(data, Fields(fs.require));
    FieldsLabelledAlike(data, fs.incorrect);
    LabelListsAgree(data, Fields(fs.incorrect));
  }
}

/**
 * The form object: its schema, the bound submission, the verdict and the
 * failure lists, and the methods that update them in place. Each method is
 * proved equal to the pure definition of what it does (Schema, Validation,
 * Uploads, Errors and the functions below).
 */
module FormEngine {
  import opened PhpValue
  import opened Schema
  import opened Helpers
  import opened Validation
  import opened Uploads
  import opened Errors

  // ------------------------------------------------------ schema operations

  /** `cleanData` on the whole schema. */
  function CleanAll(data: map<string, FieldSpec>): (r: map<string, FieldSpec>)
    ensures r.Keys == data.Keys
    ensures forall n :: n in r ==> r[n] == CleanSpec(data[n]) && Normalised(r[n])
  {
    map n | n in data :: CleanSpec(data[n])
  }

  /** Normalising the schema a second time changes nothing. */
  lemma CleanAllIdempotent(data: map<string, FieldSpec>)
    ensures CleanAll(CleanAll(data)) == CleanAll(data)
  {
    forall n | n in data
      ensures CleanSpec(CleanSpec(data[n])) == CleanSpec(data[n])
    {
      CleanSpecIdempotent(data[n]);
    }
  }

  /** The normalised schema of the confirmation scenario is `cleanData` on the
      declared one. */
  lemma CleanedMismatchSchema()
    ensures CleanAll(MismatchSchema) == MismatchData
  {
    var r := CleanAll(MismatchSchema);
    assert r.Keys == MismatchData.Keys;
    assert r["password"] == MismatchData["password"];
    assert r["password_confirm"] == MismatchData["password_confirm"];
  }

  /** The schema `isValid` works on: normalised unless that already happened. */
  function Cleaned(cleaned: bool, data: map<string, FieldSpec>): map<string, FieldSpec>
  {
    if cleaned then data else CleanAll(data)
  }

  /** The label `checkInputs` gives a captcha field. */
  const CaptchaLabel: string := "Captcha"

  /** The schema once `checkInputs` has visited the fields in `done`: their
      captcha fields relabelled. */
  function Relabelled(data: map<string, FieldSpec>, done: seq<string>): map<string, FieldSpec>
    decreases |done|
  {
    if done == [] then data
    else
      var r := Relabelled(data, done[..|done| - 1]);
      var n := done[|done| - 1];
      if n in r && HasTag(r[n], TagCaptcha) then r[n := r[n].(labelText := Some(CaptchaLabel))] else r
  }

  /** Relabelling keeps every key and every other component; a visited captcha
      is labelled "Captcha" and every other field is left alone. */
  lemma {:induction false} RelabelledEffect(data: map<string, FieldSpec>, done: seq<string>)
    ensures var r := Relabelled(data, done);
      && r.Keys == data.Keys
      && forall n :: n in data ==>
           && r[n] == data[n].(labelText := r[n].labelText)
           && (n in done && HasTag(data[n], TagCaptcha) ==> r[n].labelText == Some(CaptchaLabel))
           && (!(n in done && HasTag(data[n], TagCaptcha)) ==> r[n] == data[n])
    decreases |done|
  {
    if done != [] {
      var init := done[..|done| - 1];
      RelabelledEffect(data, init);
      assert forall k :: k in done <==> k in init || k == done[|done| - 1];
    }
  }

  lemma {:induction false} RelabelledKeys(data: map<string, FieldSpec>, done: seq<string>)
    ensures Relabelled(data, done).Keys == data.Keys
    decreases |done|
  {
    if done != [] {
      RelabelledKeys(data, done[..|done| - 1]);
    }
  }

  /** Visiting one more field relabels at most that field. */
  lemma RelabelledSnoc(data: map<string, FieldSpec>, order: seq<string>, i: nat)
    requires Ordered(order, data.Keys) && i < |order|
    ensures var r := Relabelled(data, order[..i]);
      var n := order[i];
      && r.Keys == data.Keys && n in r && r[n] == data[n]
      && Relabelled(data, order[..i + 1])
           == if HasTag(r[n], TagCaptcha) then r[n := r[n].(labelText := Some(CaptchaLabel))] else r
  {
    var n := order[i];
    assert n !in order[..i];
    RelabelledEffect(data, order[..i]);
    assert order[..i + 1][..i] == order[..i];
  }

  /** `order` with `n` removed. */
  function Without(order: seq<string>, n: string): (r: seq<string>)
    ensures forall x :: x in r <==> x in order && x != n
    decreases |order|
  {
    if order == [] then []
    else Without(order[..|order| - 1], n) + (if order[|order| - 1] == n then [] else [order[|order| - 1]])
  }

  /** Removing a name is a filter: it keeps a name other than `n`, drops `n`,
      and distributes over concatenation, so the other names keep their
      relative order. */
  lemma {:induction false} WithoutIsFilter(a: seq<string>, b: seq<string>, n: string, x: string)
    ensures Without([x], n) == (if x == n then [] else [x])
    ensures Without(a + b, n) == Without(a, n) + Without(b, n)
    decreases |b|
  {
    assert [x][..0] == [];
    if b == [] {
      assert a + b == a;
    } else {
      var init := b[..|b| - 1];
      assert (a + b)[..|a + b| - 1] == a + init;
      assert (a + b)[|a + b| - 1] == b[|b| - 1];
      WithoutIsFilter(a, init, n, x);
    }
  }

  /** Removing a key keeps the order in step with the keys. */
  lemma {:induction false} WithoutOrdered(order: seq<string>, keys: set<string>, n: string)
    requires Ordered(order, keys)
    ensures Ordered(Without(order, n), keys - {n})
    decreases |order|
  {
    if order != [] {
      var init := order[..|order| - 1];
      var last := order[|order| - 1];
      var ks := keys - {last};
      assert Ordered(init, ks) by {
        forall k ensures k in ks <==> k in init {
          if k in init {
            var i :| 0 <= i < |init| && init[i] == k;
            assert order[i] == k;
          }
          if k in ks {
            var i :| 0 <= i < |order| && order[i] == k;
            assert i < |order| - 1;
            assert init[i] == k;
          }
        }
      }
      WithoutOrdered(init, ks, n);
      assert last !in Without(init, n);
      assert ks - {n} == (keys - {n}) - {last};
    }
  }

  /** `injectValues` for one (field, value) pair: a checkbox is checked exactly
      when its value loosely equals the injected one; any other declared field
      gets the value as its value attribute, integers turned into strings;
      unknown or empty fields are left alone. */
  function InjectOne(data: map<string, FieldSpec>, n: string, v: Value): (r: map<string, FieldSpec>)
  {
    if n in data && data[n] != EmptySpec then
      var f := data[n];
      var t := Attribute(f, "type");
      if t != Null && LooseEquals(t, Str("checkbox")) then
        data[n := if LooseEquals(Attribute(f, "value"), v) then WithAttribute(f, "checked", Str("checked"))
                   else WithoutAttribute(f, "checked")]
      else data[n := WithAttribute(f, "value", NumericAsString(v))]
    else data
  }

  /** `is_numeric` values become strings before they are injected. */
  function NumericAsString(v: Value): (r: Value)
    ensures v.Int? ==> r == Str(IntToString(v.i))
    ensures !v.Int? ==> r == v
  {
    if v.Int? then Str(IntToString(v.i)) else v
  }

  function InjectAll(data: map<string, FieldSpec>, values: seq<(string, Value)>): map<string, FieldSpec>
    decreases |values|
  {
    if values == [] then data
    else
      var last := values[|values| - 1];
      InjectOne(InjectAll(data, values[..|values| - 1]), last.0, last.1)
  }

  /** What injecting one value does: the keys stay, other fields stay, only the
      attributes of the named field change, and they change as documented. */
  lemma InjectOneEffect(data: map<string, FieldSpec>, n: string, v: Value)
    ensures var r := InjectOne(data, n, v);
      && r.Keys == data.Keys
      && (forall k :: k in data && k != n ==> r[k] == data[k])
      && (n !in data || data[n] == EmptySpec ==> r == data)
      && (n in data && data[n] != EmptySpec ==>
            var f := data[n];
            var t := Attribute(f, "type");
            && r[n] == f.(attributes := r[n].attributes)
            && (t != Null && LooseEquals(t, Str("checkbox")) ==>
                  && Attribute(r[n], "checked") == (if LooseEquals(Attribute(f, "value"), v) then Str("checked") else Null)
                  && forall k :: k != "checked" ==> Attribute(r[n], k) == Attribute(f, k))
            && (!(t != Null && LooseEquals(t, Str("checkbox"))) ==>
                  && Attribute(r[n], "value") == NumericAsString(v)
                  && forall k :: k != "value" ==> Attribute(r[n], k) == Attribute(f, k)))
  {
  }

  /** Injecting never adds or removes a field, and leaves the fields it does not name alone. */
  lemma {:induction false} InjectAllFrame(data: map<string, FieldSpec>, values: seq<(string, Value)>, k: string)
    requires forall i :: 0 <= i < |values| ==> values[i].0 != k
    ensures InjectAll(data, values).Keys == data.Keys
    ensures k in data ==> InjectAll(data, values)[k] == data[k]
    decreases |values|
  {
    if values != [] {
      var init := values[..|values| - 1];
      assert forall i :: 0 <= i < |init| ==> init[i] == values[i];
      InjectAllFrame(data, init, k);
      InjectOneEffect(InjectAll(data, init), values[|values| - 1].0, values[|values| - 1].1);
    }
  }

  // ------------------------------------------------------------------ Form

  class Form {
    /** The form's name (the key of its submission). */
    const name: string
    /** The schema: field specifications by name, and their declaration order. */
    var data: map<string, FieldSpec>
    var order: seq<string>
    var dataCleaned: bool
    /** Whether a submission was ever bound; `post` is meaningless before. */
    var hasPost: bool
    var post: map<string, Value>
    var isValid: bool
    var inputsRequire: seq<string>
    var inputsIncorrect: seq<string>
    var inputsWithAlternative: seq<(string, string)>
    var inputsWithConfirm: seq<(string, string)>
    var uploadsFailMimeType: seq<string>
    var uploadsSendFail: seq<string>
    var uploads: seq<Upload>
    var error: string

    ghost predicate Valid()
      reads this
    {
      Ordered(order, data.Keys)
    }

    /** A form without a declaration file: an empty schema. */
    constructor (formName: string)
      ensures name == formName && data == map[] && order == [] && !dataCleaned
      ensures !hasPost && !isValid && error == ""
      ensures inputsRequire == [] && inputsIncorrect == [] && inputsWithAlternative == [] && inputsWithConfirm == []
      ensures uploadsFailMimeType == [] && uploadsSendFail == [] && uploads == []
      ensures Valid()
    {
      name := formName;
      data := map[];
      order := [];
      dataCleaned := false;
      hasPost := false;
      post := map[];
      isValid := false;
      inputsRequire := [];
      inputsIncorrect := [];
      inputsWithAlternative := [];
      inputsWithConfirm := [];
      uploadsFailMimeType := [];
      uploadsSendFail := [];
      uploads := [];
      error := "";
    }

    /** `cleanData`: normalises every field, once. */
    method CleanData()
      requires Valid()
      modifies this`data, this`dataCleaned
      ensures Valid() && dataCleaned
      ensures data == Cleaned(old(dataCleaned), old(data))
    {
      if dataCleaned {
        return;
      }
      dataCleaned := true;
      ghost var data0 := data;
      for i := 0 to |order|
        invariant dataCleaned && data.Keys == data0.Keys
        invariant forall n :: n in data ==> data[n] == if n in order[..i] then CleanSpec(data0[n]) else data0[n]
      {
        var n := order[i];
        data := data[n := CleanSpec(data[n])];
        assert forall k :: k in order[..i + 1] <==> k in order[..i] || k == n;
        assert n !in order[..i];
      }
      assert order[..|order|] == order;
    }

    /** `setProperty`: sets one attribute of a declared field. */
    method SetProperty(n: string, key: string, v: Value) returns (ok: bool)
      requires Valid()
      modifies this`data
      ensures Valid()
      ensures ok <==> n in old(data)
      ensures ok ==> data == old(data)[n := WithAttribute(old(data)[n], key, v)]
      ensures !ok ==> data == old(data)
    {
      if n !in data {
        return false;
      }
      data := data[n := WithAttribute(data[n], key, v)];
      return true;
    }

    /** `setInput`: declares or replaces a field; a new field comes last. */
    method SetInput(n: string, f: FieldSpec)
      requires Valid()
      modifies this`data, this`order
      ensures Valid()
      ensures data == old(data)[n := f]
      ensures order == if n in old(data) then old(order) else old(order) + [n]
    {
      if n !in data {
        order := order + [n];
      }
      data := data[n := f];
    }

    /** `unsetInput`: removes a field if it is declared. */
    method UnsetInput(n: string)
      requires Valid()
      modifies this`data, this`order
      ensures Valid()
      ensures data == old(data) - {n}
      ensures n !in old(data) ==> order == old(order)
      ensures n in old(data) ==> order == Without(old(order), n)
    {
      if n !in data {
        return;
      }
      WithoutOrdered(order, data.Keys, n);
      data := data - {n};
      order := Without(order, n);
    }

    /** `getInput`: a declared field with at least one key, or nothing. */
    function GetInput(n: string): (r: Option<FieldSpec>)
      reads this
      ensures r.Some? <==> n in data && data[n] != EmptySpec
      ensures r.Some? ==> r.value == data[n]
    {
      if n in data && data[n] != EmptySpec then Some(data[n]) else None
    }

    /** `injectValues`: the values, in order, into the declared fields' attributes. */
    method InjectValues(values: seq<(string, Value)>)
      requires Valid()
      modifies this`data
      ensures Valid()
      ensures data == InjectAll(old(data), values)
    {
      ghost var data0 := data;
      for i := 0 to |values|
        invariant data == InjectAll(data0, values[..i])
        invariant data.Keys == data0.Keys
      {
        assert values[..i + 1][..i] == values[..i];
        InjectOneEffect(data, values[i].0, values[i].1);
        var (n, v) := values[i];
        if n in data && data[n] != EmptySpec {
          var f := data[n];
          var t := Attribute(f, "type");
          if t != Null && LooseEquals(t, Str("checkbox")) {
            if LooseEquals(Attribute(f, "value"), v) {
              data := data[n := WithAttribute(f, "checked", Str("checked"))];
            } else {
              data := data[n := WithoutAttribute(f, "checked")];
            }
          } else {
            data := data[n := WithAttribute(f, "value", NumericAsString(v))];
          }
        }
      }
      assert values[..|values|] == values;
    }
      // -------------------------------------------------------- checkInputs

    /** The pass state as `Validation` sees it, with the invalidated captchas. */
    function Snap(consumed: seq<string>): Pass
      reads this
    {
      Pass(post, isValid, inputsRequire, inputsIncorrect, inputsWithAlternative, inputsWithConfirm, consumed)
    }

    /** `applyModifiers`: the modifiers applied to the bound value, in order. */
    method ApplyModifiers(mods: Option<seq<string>>, n: string, apply: (string, Value) -> Value)
      modifies this`post
      ensures post == Modified(old(post), n, mods, apply)
    {
      if mods.None? {
        return;
      }
      var ms := mods.value;
      ghost var post0 := post;
      for i := 0 to |ms|
        invariant post == if i == 0 then post0 else post0[n := Pipeline(ms[..i], Lookup(post0, n), apply)]
      {
        assert ms[..i + 1][..i] == ms[..i];
        post := post[n := apply(ms[i], Lookup(post, n))];
      }
      assert ms[..|ms|] == ms;
    }

    /** The control-type switch and the checkbox-group default. */
    method RebindControl(n: string, f: FieldSpec)
      modifies this`post
      ensures post == Rebind(old(post), n, f)
    {
      var t := Attribute(f, "type");
      if t != Null {
        if LooseEquals(t, Str("submit")) {
          post := post - {n};
        } else if LooseEquals(t, Str("checkbox")) {
          if !IsSet(post, n) || !LooseEquals(post[n], Attribute(f, "value")) {
            post := post[n := Attribute(f, "valueOff")];
          }
        }
      }
      if HasTag(f, TagCheckboxGroup) && !IsSet(post, n) {
        post := post[n := Arr([])];
      }
    }

    /** Trims the bound value: a string, or each string of a list. */
    method TrimInput(n: string)
      modifies this`post
      ensures post == TrimBound(old(post), n)
    {
      if n !in post {
        return;
      }
      match post[n]
      case Str(s) =>
        post := post[n := Str(Trim(s))];
      case Arr(xs) =>
        var ys: seq<Value> := [];
        for i := 0 to |xs|
          invariant |ys| == i
          invariant forall j :: 0 <= j < i ==> ys[j] == if xs[j].Str? then Str(Trim(xs[j].s)) else xs[j]
        {
          var x := xs[i];
          if x.Str? {
            x := Str(Trim(x.s));
          }
          ys := ys + [x];
        }
        assert Arr(ys) == TrimValue(Arr(xs));
        post := post[n := Arr(ys)];
      case _ =>
    }

    /** The `array_shift` of a multiple select. */
    method ShiftInput(n: string)
      modifies this`post
      ensures post == Shift(old(post), n)
    {
      if n in post && post[n].Arr? && |post[n].items| > 0 {
        post := post[n := Arr(post[n].items[1..])];
      }
    }

    /** The captcha branch. */
    method CheckCaptcha(n: string, env: Env, consumed: seq<string>) returns (consumed': seq<string>)
      modifies this`post, this`isValid, this`inputsRequire, this`inputsIncorrect
      ensures Snap(consumed') == CaptchaStep(old(Snap(consumed)), n, env)
    {
      var v := Lookup(post, n);
      post := post - {n};
      consumed' := consumed;
      if Empty(v) {
        inputsRequire := inputsRequire + [n];
        isValid := false;
      } else if !LooseEquals(env.captchaValue(n), v) {
        inputsIncorrect := inputsIncorrect + [n];
        isValid := false;
      } else {
        consumed' := consumed + [n];
      }
    }

    /** The confirm branch. */
    method CheckConfirm(n: string, t: string, consumed: seq<string>)
      modifies this`post, this`isValid, this`inputsWithConfirm
      ensures Snap(consumed) == ConfirmStep(old(Snap(consumed)), n, t)
    {
      if !IsSet(post, t) {
        post := post - {n};
      } else if !LooseEquals(Lookup(post, n), post[t]) {
        inputsWithConfirm := inputsWithConfirm + [(n, t)];
        isValid := false;
      } else {
        post := post - {n};
      }
    }

    /** Pruning and the pattern match. */
    method CheckPattern(n: string, f: FieldSpec, env: Env, consumed: seq<string>)
      modifies this`post, this`isValid, this`inputsIncorrect
      ensures Snap(consumed) == MatchStep(old(Snap(consumed)), n, f, env)
    {
      var pattern := GetRegExp(if f.regExp.Some? then f.regExp.value else "");
      if PrunesFirst(f) {
        ShiftInput(n);
      }
      var ok := MatchesPattern(Lookup(post, n), pattern, env.matches);
      if ok {
        ApplyModifiers(f.outputModifiers, n, env.applyModifier);
      } else {
        inputsIncorrect := inputsIncorrect + [n];
        post := post - {n};
        isValid := false;
      }
    }

    /** From the optional-empty check on. */
    method CheckRest(n: string, f: FieldSpec, env: Env, consumed: seq<string>) returns (fatal: bool)
      modifies this`post, this`isValid, this`inputsIncorrect
      ensures var r := PatternPhase(old(Snap(consumed)), n, f, env);
        fatal == r.Fatal? && (r.Next? ==> Snap(consumed) == r.pass)
    {
      fatal := false;
      if !Required(f) && Empty(Lookup(post, n)) {
        ApplyModifiers(f.outputModifiers, n, env.applyModifier);
      } else if Required(f) && EmptyPattern(f) {
        fatal := true;
      } else if EmptyPattern(f) {
        ApplyModifiers(f.outputModifiers, n, env.applyModifier);
      } else {
        CheckPattern(n, f, env, consumed);
      }
    }

    /** The required-empty check, then the rest. */
    method CheckRequired(n: string, f: FieldSpec, keys: set<string>, env: Env, consumed: seq<string>)
      returns (fatal: bool)
      modifies this`post, this`isValid, this`inputsRequire, this`inputsIncorrect
      ensures var r := RequireStep(old(Snap(consumed)), n, f, keys, env);
        fatal == r.Fatal? && (r.Next? ==> Snap(consumed) == r.pass)
    {
      TrimInput(n);
      fatal := false;
      if Blank(Lookup(post, n)) {
        if !AlternativeExempt(post, f, keys) {
          inputsRequire := inputsRequire + [n];
          isValid := false;
        }
      } else {
        fatal := CheckRest(n, f, env, consumed);
      }
    }

    /** One turn of `checkInputs`' loop, for the field `n` with specification `f`. */
    method CheckInput(n: string, f: FieldSpec, keys: set<string>, env: Env, consumed: seq<string>)
      returns (fatal: bool, consumed': seq<string>, ghost r: Step)
      modifies this`post, this`isValid, this`inputsRequire, this`inputsIncorrect
      modifies this`inputsWithAlternative, this`inputsWithConfirm
      ensures r == CheckField(old(Snap(consumed)), n, f, keys, env)
      ensures fatal == r.Fatal? && (r.Next? ==> Snap(consumed') == r.pass)
    {
      r := CheckField(Snap(consumed), n, f, keys, env);
      fatal := false;
      consumed' := consumed;
      if HasTag(f, TagCaptcha) {
        consumed' := CheckCaptcha(n, env, consumed);
        return;
      }
      ApplyModifiers(f.inputModifiers, n, env.applyModifier);
      RebindControl(n, f);
      if HasTag(f, TagUpload) && Required(f) {
        if NoUpload(post, n, f) {
          inputsRequire := inputsRequire + [n];
          isValid := false;
        }
      } else if AlternativeFires(post, n, f, keys) {
        inputsWithAlternative := inputsWithAlternative + [(n, AlternativeTarget(f, keys).value)];
        isValid := false;
      } else if ConfirmTarget(f, keys).Some? {
        CheckConfirm(n, ConfirmTarget(f, keys).value, consumed);
      } else if Required(f) {
        fatal := CheckRequired(n, f, keys, env, consumed);
      } else {
        fatal := CheckRest(n, f, env, consumed);
      }
    }

    /** The captcha relabelling at the top of a turn. */
    method RelabelCaptcha(n: string)
      requires n in data
      modifies this`data
      ensures data == if HasTag(old(data)[n], TagCaptcha)
                      then old(data)[n := old(data)[n].(labelText := Some(CaptchaLabel))] else old(data)
    {
      if HasTag(data[n], TagCaptcha) {
        data := data[n := data[n].(labelText := Some(CaptchaLabel))];
      }
    }

    /** One turn of `checkInputs`' loop: the field at position `i` of the order. */
    method VisitField(ghost data0: map<string, FieldSpec>, i: nat, env: Env,
                      consumed: seq<string>) returns (stop: bool, consumed': seq<string>)
      requires Ordered(order, data0.Keys) && i < |order|
      requires data == Relabelled(data0, order[..i])
      modifies this`post, this`isValid, this`inputsRequire, this`inputsIncorrect
      modifies this`inputsWithAlternative, this`inputsWithConfirm, this`data
      ensures data == Relabelled(data0, order[..i + 1])
      ensures stop ==> CheckFields(old(Snap(consumed)), order[i..], data0, env) == Fatal(order[i])
      ensures !stop ==> CheckFields(old(Snap(consumed)), order[i..], data0, env)
                        == CheckFields(Snap(consumed'), order[i + 1..], data0, env)
    {
      var n := order[i];
      RelabelledSnoc(data0, order, i);
      var f := data[n];
      var keys := data.Keys;
      RelabelCaptcha(n);
      ghost var before := Snap(consumed);
      ghost var r;
      stop, consumed', r := CheckInput(n, f, keys, env, consumed);
      CheckFieldsTurn(before, order, i, data0, env, f, keys, r);
    }

    /** `checkInputs`: resets the verdict and the failure lists, then runs every
      field in schema order. A fatal field stops the loop (the script dies). */
    method CheckInputs(env: Env) returns (fatal: Option<string>, invalidated: seq<string>)
      requires Valid()
      modifies this`post, this`isValid, this`inputsRequire, this`inputsIncorrect
      modifies this`inputsWithAlternative, this`inputsWithConfirm, this`data
      ensures Valid() && data.Keys == old(data).Keys
      ensures var r := CheckFields(Start(old(post)), order, old(data), env);
        && (r.Fatal? ==> fatal == Some(r.field))
        && (r.Next? ==> fatal.None? && Snap(invalidated) == r.pass && data == Relabelled(old(data), order))
    {
      ghost var data0 := data;
      ghost var outcome := CheckFields(Start(post), order, data0, env);
      isValid := true;
      inputsWithAlternative := [];
      inputsWithConfirm := [];
      inputsRequire := [];
      inputsIncorrect := [];
      invalidated := [];
      assert Snap(invalidated) == Start(old(post));
      assert order[..0] == [] && order[0..] == order;
      var i := 0;
      while i < |order|
        invariant 0 <= i <= |order|
        invariant data == Relabelled(data0, order[..i])
        invariant CheckFields(Snap(invalidated), order[i..], data0, env) == outcome
      {
        var stop;
        stop, invalidated := VisitField(data0, i, env, invalidated);
        if stop {
          RelabelledKeys(data0, order[..i + 1]);
          return Some(order[i]), invalidated;
        }
        i := i + 1;
      }
      assert order[..|order|] == order && order[|order|..] == [];
      RelabelledKeys(data0, order);
      fatal := None;
    }

    // ------------------------------------------------------ performUploads

    /** The upload pass state as `Uploads` sees it. */
    function UploadSnap(): UploadPass
      reads this
    {
      UploadPass(post, data, order, uploadsFailMimeType, uploadsSendFail, uploads)
    }

    /** `performUploads`: clears the three upload lists, then treats the
        submitted files in order (`files` is empty when nothing was sent for
        this form). */
    method PerformUploads(files: seq<(string, FileEntry)>, svc: UploadService)
      requires Valid()
      modifies this`post, this`data, this`order, this`uploadsFailMimeType, this`uploadsSendFail, this`uploads
      ensures Valid()
      ensures UploadSnap() == UploadAll(StartUploads(old(post), old(data), old(order)), files, svc)
    {
      uploadsFailMimeType := [];
      uploadsSendFail := [];
      uploads := [];
      ghost var s0 := UploadSnap();
      assert files[..0] == [];
      for i := 0 to |files|
        invariant Valid()
        invariant UploadSnap() == UploadAll(s0, files[..i], svc)
      {
        UploadAllSnoc(s0, files, i, svc);
        UploadFile(files[i].0, files[i].1, svc);
      }
      assert files[..|files|] == files;
    }

    /** One turn of `performUploads`' loop: the file `file` submitted for the field `n`. */
    method UploadFile(n: string, file: FileEntry, svc: UploadService)
      requires Valid()
      modifies this`post, this`data, this`order, this`uploadsFailMimeType, this`uploadsSendFail, this`uploads
      ensures Valid()
      ensures UploadSnap() == Uploads.UploadStep(old(UploadSnap()), n, file, svc)
    {
      UploadStepOrdered(UploadSnap(), n, file, svc);
      if !IsSet(post, n) || Empty(post[n]) {
        var f := SpecOf(data, n);
        var request := UploadRequest(file, Destination(f), StoredName(f, svc.draw(n)), f.resize);
        if !svc.typeAllowed(request, f.fileType) {
          uploadsFailMimeType := uploadsFailMimeType + [n];
        } else {
          var sent := svc.send(request);
          if sent.None? {
            uploadsSendFail := uploadsSendFail + [n];
          } else {
            if n !in data {
              order := order + [n];
            }
            data := data[n := f.(isUpload := true)];
            post := post[n := sent.value];
            uploads := uploads + [Upload(n, request, sent.value)];
          }
        }
      }
    }

    // ------------------------------------------------------------ messages

    /** `getErrorFromArray`: the labels of the entries, comma separated, put
        into the message the dictionary holds for their number. */
    method GetErrorFromArray(es: seq<Entry>, singular: string, plural: string, dict: Dictionary)
      returns (r: string)
      ensures r == ErrorFromArray(dict, data, es, singular, plural, AsWritten)
    {
      if |es| == 0 {
        return "";
      }
      var labels := "";
      for i := 0 to |es|
        invariant labels == LabelList(data, es[..i], AsWritten)
      {
        assert es[..i + 1][..i] == es[..i];
        if i > 0 {
          labels := labels + ", ";
        }
        labels := labels + RenderEntry(data, es[i], AsWritten);
      }
      assert es[..|es|] == es;
      var format;
      if |es| == 1 {
        format := dict.term(singular + KeySuffix(es[0]));
        if format == dict.undefined {
          format := dict.term(singular);
        }
      } else {
        format := dict.term(plural);
      }
      r := "<p>" + dict.sprintf(format, labels) + "</p>";
    }

    /** The six failure lists, in report order. */
    function FailureLists(): Failures
      reads this
    {
      Failures(uploadsFailMimeType, uploadsSendFail, inputsWithAlternative, inputsWithConfirm,
               inputsRequire, inputsIncorrect)
    }

    /** `getError`: nothing before a submission was bound; otherwise the six
        paragraphs, which also become the form's `error`. */
    method GetError(dict: Dictionary) returns (r: string)
      modifies this`error
      ensures !hasPost ==> r == "" && error == old(error)
      ensures hasPost ==> r == ErrorMessage(dict, data, FailureLists(), AsWritten) && error == r
    {
      if !hasPost {
        return "";
      }
      var msg := GetErrorFromArray(Fields(uploadsFailMimeType), KeyMimeType, KeyMimeTypes, dict);
      var e := GetErrorFromArray(Fields(uploadsSendFail), KeyUploadSend, KeyUploadsSend, dict);
      msg := msg + e;
      e := GetErrorFromArray(Pairs(inputsWithAlternative), KeyWithAlternative, KeysWithAlternative, dict);
      msg := msg + e;
      e := GetErrorFromArray(Pairs(inputsWithConfirm), KeyWithConfirm, KeysWithConfirm, dict);
      msg := msg + e;
      e := GetErrorFromArray(Fields(inputsRequire), KeyRequire, KeysRequire, dict);
      msg := msg + e;
      e := GetErrorFromArray(Fields(inputsIncorrect), KeyIncorrect, KeysIncorrect, dict);
      msg := msg + e;
      error := msg;
      r := msg;
    }

    // ------------------------------------------------------------- isValid

    /** `isValid`: cleans the schema and clears the message; without a
        non-empty submission the form is not valid and nothing else happens.
        Otherwise the submission is bound, the uploads are performed and the
        fields checked; the verdict is the flag `checkInputs` leaves. */
    method IsValid(submission: Option<map<string, Value>>, files: seq<(string, FileEntry)>,
                   svc: UploadService, env: Env)
      returns (ok: bool, fatal: Option<string>, invalidated: seq<string>)
      requires Valid()
      modifies this`data, this`dataCleaned, this`error, this`hasPost, this`post, this`order
      modifies this`uploadsFailMimeType, this`uploadsSendFail, this`uploads
      modifies this`isValid, this`inputsRequire, this`inputsIncorrect, this`inputsWithAlternative, this`inputsWithConfirm
      ensures Valid() && dataCleaned && error == ""
      ensures submission.None? || submission.value == map[] ==>
        && !ok && fatal.None? && invalidated == []
        && data == Cleaned(old(dataCleaned), old(data)) && order == old(order)
        && post == old(post) && hasPost == old(hasPost) && isValid == old(isValid)
        && inputsRequire == old(inputsRequire) && inputsIncorrect == old(inputsIncorrect)
        && inputsWithAlternative == old(inputsWithAlternative) && inputsWithConfirm == old(inputsWithConfirm)
        && uploadsFailMimeType == old(uploadsFailMimeType) && uploadsSendFail == old(uploadsSendFail)
        && uploads == old(uploads)
      ensures submission.Some? && submission.value != map[] ==>
        var u := UploadAll(StartUploads(submission.value, Cleaned(old(dataCleaned), old(data)), old(order)),
                           files, svc);
        var r := CheckFields(Start(u.post), u.order, u.data, env);
        && hasPost && order == u.order
        && uploadsFailMimeType == u.typeRejected && uploadsSendFail == u.sendFailed && uploads == u.uploads
        && (r.Fatal? ==> fatal == Some(r.field))
        && (r.Next? ==> && fatal.None? && Snap(invalidated) == r.pass && ok == r.pass.valid
                        && (ok <==> NoFailures(r.pass))
                        && data == Relabelled(u.data, u.order))
    {
      CleanData();
      error := "";
      if submission.None? || submission.value == map[] {
        return false, None, [];
      }
      ghost var u := UploadAll(StartUploads(submission.value, data, order), files, svc);
      CheckFieldsVerdict(u.post, u.order, u.data, env);
      fatal, invalidated := Submit(submission.value, files, svc, env);
      ok := isValid;
    }

    /** The part of `isValid` after a non-empty submission arrived: it is bound,
        then the uploads and the checks run. */
    method Submit(submission: map<string, Value>, files: seq<(string, FileEntry)>, svc: UploadService, env: Env)
      returns (fatal: Option<string>, invalidated: seq<string>)
      requires Valid()
      modifies this`hasPost, this`post, this`data, this`order
      modifies this`uploadsFailMimeType, this`uploadsSendFail, this`uploads
      modifies this`isValid, this`inputsRequire, this`inputsIncorrect, this`inputsWithAlternative, this`inputsWithConfirm
      ensures Valid() && hasPost
      ensures var u := UploadAll(StartUploads(submission, old(data), old(order)), files, svc);
        var r := CheckFields(Start(u.post), u.order, u.data, env);
        && order == u.order
        && uploadsFailMimeType == u.typeRejected && uploadsSendFail == u.sendFailed && uploads == u.uploads
        && (r.Fatal? ==> fatal == Some(r.field))
        && (r.Next? ==> fatal.None? && Snap(invalidated) == r.pass && data == Relabelled(u.data, u.order))
    {
      hasPost := true;
      post := submission;
      PerformUploads(files, svc);
      fatal, invalidated := CheckInputs(env);
    }
  }

  /** The pattern test as `checkInputs` runs it: every element of a list in turn. */
  method MatchesPattern(v: Value, pattern: string, matches: (string, string) -> bool) returns (ok: bool)
    ensures ok == ValueMatches(v, pattern, matches)
  {
    match v
    case Arr(xs) =>
      ok := true;
      for i := 0 to |xs|
        invariant ok == forall j :: 0 <= j < i ==> ElementMatches(xs[j], pattern, matches)
      {
        ok := ok && ElementMatches(xs[i], pattern, matches);
      }
    case Str(s) =>
      ok := PregMatch(pattern, s, matches);
    case _ =>
      ok := false;
  }
}

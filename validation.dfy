/**
 * The per-field validation pass of `checkInputs`, as pure functions.
 *
 * `CheckField` is what one turn of `checkInputs`' loop does to the pass state
 * (the bound values, the verdict and the four failure lists); `CheckFields`
 * runs it over the fields in schema order. The branch functions follow the
 * order of the source: captcha, input modifiers, control rebinding, required
 * upload, alternative pair, confirm pair, required-empty, optional-empty,
 * pattern. The imperative `Form.CheckInputs` is proved equal to `CheckFields`.
 */
module Validation {
  import opened PhpValue
  import opened Schema
  import opened Helpers

  /** The collaborators a pass calls: the challenge the session holds for a
      captcha field, the named modifier functions, and the regular-expression
      matcher (`matches(pattern, subject)`). */
  datatype Env = Env(
    captchaValue: string -> Value,
    applyModifier: (string, Value) -> Value,
    matches: (string, string) -> bool)

  /** The state `checkInputs` threads through its loop. `consumed` lists the
      captcha fields whose challenge was invalidated, in order. */
  datatype Pass = Pass(
    post: map<string, Value>,
    valid: bool,
    require: seq<string>,
    incorrect: seq<string>,
    alternative: seq<(string, string)>,
    confirm: seq<(string, string)>,
    consumed: seq<string>)

  /** A turn either goes on with a new state or stops the script: the field is
      required and declares no pattern. */
  datatype Step = Next(pass: Pass) | Fatal(field: string)

  /** The state at the top of `checkInputs`: valid, all lists cleared. */
  function Start(post: map<string, Value>): Pass
  {
    Pass(post, true, [], [], [], [], [])
  }

  predicate NoFailures(p: Pass)
  {
    p.require == [] && p.incorrect == [] && p.alternative == [] && p.confirm == []
  }

  /** The flag agrees with the four failure lists. */
  predicate Consistent(p: Pass)
  {
    p.valid <==> NoFailures(p)
  }

  /** `b` equals `a` at every key other than `name`. */
  ghost predicate SameElsewhere(a: map<string, Value>, b: map<string, Value>, name: string)
  {
    forall k :: k != name ==> (k in a <==> k in b) && Lookup(a, k) == Lookup(b, k)
  }

  // ------------------------------------------------------- modifier pipeline

  /** The modifiers applied left to right, each to the previous one's output. */
  function Pipeline(mods: seq<string>, v: Value, apply: (string, Value) -> Value): Value
    decreases |mods|
  {
    if mods == [] then v
    else apply(mods[|mods| - 1], Pipeline(mods[..|mods| - 1], v, apply))
  }

  /** Running two lists of modifiers one after the other is running their concatenation. */
  lemma {:induction false} PipelineCompose(a: seq<string>, b: seq<string>, v: Value,
                                           apply: (string, Value) -> Value)
    ensures Pipeline(a + b, v, apply) == Pipeline(b, Pipeline(a, v, apply), apply)
    decreases |b|
  {
    if b == [] {
      assert a + b == a;
    } else {
      var b' := b[..|b| - 1];
      assert (a + b)[..|a + b| - 1] == a + b';
      assert (a + b)[|a + b| - 1] == b[|b| - 1];
      PipelineCompose(a, b', v, apply);
    }
  }

  /** `applyModifiers`: the bound value of `name`, rebound to the pipeline's
      result when a non-empty list of modifiers is declared (a missing value
      enters the pipeline as null). */
  function Modified(post: map<string, Value>, name: string, mods: Option<seq<string>>,
                    apply: (string, Value) -> Value): (r: map<string, Value>)
  {
    if mods.Some? && mods.value != [] then post[name := Pipeline(mods.value, Lookup(post, name), apply)]
    else post
  }

  // ------------------------------------------------------------- branches

  function FailRequire(q: Pass, name: string): Pass
  {
    q.(require := q.require + [name], valid := false)
  }

  /** The captcha branch: the value always leaves the bound set; a missing
      answer is a required failure, a wrong one an incorrect failure, a right
      one invalidates the challenge. */
  function CaptchaStep(p: Pass, name: string, env: Env): Pass
  {
    var v := Lookup(p.post, name);
    var post := p.post - {name};
    if Empty(v) then FailRequire(p.(post := post), name)
    else if !LooseEquals(env.captchaValue(name), v) then
      p.(post := post, incorrect := p.incorrect + [name], valid := false)
    else p.(post := post, consumed := p.consumed + [name])
  }

  /** The `type` switch and the checkbox-group default. A submit control loses
      its value and (the `continue` of the switch acting as `break`) goes on to
      the later checks; an unchecked checkbox is rebound to `valueOff`; an unset
      checkbox group to the empty list. */
  function Rebind(post: map<string, Value>, name: string, f: FieldSpec): (r: map<string, Value>)
  {
    var t := Attribute(f, "type");
    var post1 :=
      if t == Null then post
      else if LooseEquals(t, Str("submit")) then post - {name}
      else if LooseEquals(t, Str("checkbox")) then
        (if !IsSet(post, name) || !LooseEquals(post[name], Attribute(f, "value"))
         then post[name := Attribute(f, "valueOff")] else post)
      else post;
    if HasTag(f, TagCheckboxGroup) && !IsSet(post1, name) then post1[name := Arr([])] else post1
  }

  /** Input modifiers, then rebinding: what every non-captcha field goes through. */
  function Prepare(p: Pass, name: string, f: FieldSpec, env: Env): (q: Pass)
  {
    p.(post := Rebind(Modified(p.post, name, f.inputModifiers, env.applyModifier), name, f))
  }

  /** No upload this pass, no stored value, no bound value. */
  predicate NoUpload(post: map<string, Value>, name: string, f: FieldSpec)
  {
    !f.isUpload && Empty(Attribute(f, "value")) && Empty(Lookup(post, name))
  }

  /** A required upload field: fails unless something is there; ends the field either way. */
  function UploadStep(q: Pass, name: string, f: FieldSpec): Pass
  {
    if NoUpload(q.post, name, f) then FailRequire(q, name) else q
  }

  /** The alternative target, when it names a field of the schema. */
  function AlternativeTarget(f: FieldSpec, keys: set<string>): Option<string>
  {
    if f.isAlternativeFor.Some? && f.isAlternativeFor.value in keys then f.isAlternativeFor else None
  }

  /** The confirmation target, when it names a field of the schema. */
  function ConfirmTarget(f: FieldSpec, keys: set<string>): Option<string>
  {
    if f.isConfirmFor.Some? && f.isConfirmFor.value in keys then f.isConfirmFor else None
  }

  /** Both sides of an alternative pair are empty. */
  predicate AlternativeFires(post: map<string, Value>, name: string, f: FieldSpec, keys: set<string>)
  {
    AlternativeTarget(f, keys).Some?
    && Empty(Lookup(post, AlternativeTarget(f, keys).value)) && Empty(Lookup(post, name))
  }

  /** The confirm branch: an unbound target drops the field's value; a different
      value is a confirm failure; an equal one is dropped (the target's value stands). */
  function ConfirmStep(q: Pass, name: string, t: string): (r: Pass)
  {
    if !IsSet(q.post, t) then q.(post := q.post - {name})
    else if !LooseEquals(Lookup(q.post, name), q.post[t]) then
      q.(confirm := q.confirm + [(name, t)], valid := false)
    else q.(post := q.post - {name})
  }

  /** `trim` on a bound value: a string directly, a list element by element. */
  function TrimValue(v: Value): Value
  {
    match v
    case Str(s) => Str(Trim(s))
    case Arr(xs) => Arr(seq(|xs|, i requires 0 <= i < |xs| => if xs[i].Str? then Str(Trim(xs[i].s)) else xs[i]))
    case _ => v
  }

  function TrimBound(post: map<string, Value>, name: string): (r: map<string, Value>)
  {
    if name in post && (post[name].Str? || post[name].Arr?) then post[name := TrimValue(post[name])]
    else post
  }

  /** Empty in PHP's sense, except the integer 0 and the string "0". */
  predicate Blank(v: Value)
  {
    v != Int(0) && v != Str("0") && Empty(v)
  }

  /** A blank required field is excused when its alternative target holds a value. */
  predicate AlternativeExempt(post: map<string, Value>, f: FieldSpec, keys: set<string>)
  {
    AlternativeTarget(f, keys).Some? && !Empty(Lookup(post, AlternativeTarget(f, keys).value))
  }

  predicate EmptyPattern(f: FieldSpec)
  {
    f.regExp.None? || Empty(Str(f.regExp.value))
  }

  /** A multiple select that is not required loses its first selected entry before matching. */
  predicate PrunesFirst(f: FieldSpec)
  {
    HasTag(f, TagSelect) && Attribute(f, "multiple") != Null
    && LooseEquals(Attribute(f, "multiple"), Str("multiple")) && !Required(f)
  }

  /** `array_shift` on the bound value: drops the first element of a non-empty list. */
  function Shift(post: map<string, Value>, name: string): (r: map<string, Value>)
  {
    if name in post && post[name].Arr? && |post[name].items| > 0
    then post[name := Arr(post[name].items[1..])]
    else post
  }

  /** `preg_match`: an empty pattern never matches. */
  predicate PregMatch(pattern: string, s: string, matches: (string, string) -> bool)
  {
    pattern != "" && matches(pattern, s)
  }

  /** One element of a list value, converted to the string `preg_match` sees. */
  predicate ElementMatches(v: Value, pattern: string, matches: (string, string) -> bool)
  {
    Subject(v).Some? && PregMatch(pattern, Subject(v).value, matches)
  }

  /** The pattern test: a string matches directly, a list when every element
      does, anything else fails. */
  predicate ValueMatches(v: Value, pattern: string, matches: (string, string) -> bool)
  {
    match v
    case Arr(xs) => forall i :: 0 <= i < |xs| ==> ElementMatches(xs[i], pattern, matches)
    case Str(s) => PregMatch(pattern, s, matches)
    case _ => false
  }

  function PatternOf(f: FieldSpec): string
  {
    GetRegExp(if f.regExp.Some? then f.regExp.value else "")
  }

  /** Pruning, then the match: a failure drops the value and records the field
      as incorrect; a success applies the output modifiers. */
  function MatchStep(q: Pass, name: string, f: FieldSpec, env: Env): (r: Pass)
  {
    var post1 := if PrunesFirst(f) then Shift(q.post, name) else q.post;
    if ValueMatches(Lookup(post1, name), PatternOf(f), env.matches)
    then q.(post := Modified(post1, name, f.outputModifiers, env.applyModifier))
    else q.(post := post1 - {name}, incorrect := q.incorrect + [name], valid := false)
  }

  /** From the optional-empty check on: an empty optional field only gets its
      output modifiers; a required field without a pattern is fatal; a field
      without a pattern is accepted; otherwise the pattern decides. */
  function PatternPhase(q: Pass, name: string, f: FieldSpec, env: Env): Step
  {
    if !Required(f) && Empty(Lookup(q.post, name)) then
      Next(q.(post := Modified(q.post, name, f.outputModifiers, env.applyModifier)))
    else if Required(f) && EmptyPattern(f) then Fatal(name)
    else if EmptyPattern(f) then
      Next(q.(post := Modified(q.post, name, f.outputModifiers, env.applyModifier)))
    else Next(MatchStep(q, name, f, env))
  }

  /** The required-empty check: the value is trimmed; a blank value fails
      unless the alternative target holds a value (then the field ends quietly). */
  function RequireStep(q: Pass, name: string, f: FieldSpec, keys: set<string>, env: Env): Step
  {
    var q1 := q.(post := TrimBound(q.post, name));
    if Blank(Lookup(q1.post, name)) then
      (if AlternativeExempt(q1.post, f, keys) then Next(q1) else Next(FailRequire(q1, name)))
    else PatternPhase(q1, name, f, env)
  }

  /** One turn of `checkInputs`' loop; the first branch that ends the field wins. */
  function CheckField(p: Pass, name: string, f: FieldSpec, keys: set<string>, env: Env): Step
  {
    if HasTag(f, TagCaptcha) then Next(CaptchaStep(p, name, env))
    else
      var q := Prepare(p, name, f, env);
      if HasTag(f, TagUpload) && Required(f) then Next(UploadStep(q, name, f))
      else if AlternativeFires(q.post, name, f, keys) then
        Next(q.(alternative := q.alternative + [(name, AlternativeTarget(f, keys).value)], valid := false))
      else if ConfirmTarget(f, keys).Some? then Next(ConfirmStep(q, name, ConfirmTarget(f, keys).value))
      else if Required(f) then RequireStep(q, name, f, keys, env)
      else PatternPhase(q, name, f, env)
  }

  /** The whole loop over the fields in schema order, each turn starting from
      the state the previous one left; a fatal turn stops it. */
  function CheckFields(p: Pass, names: seq<string>, data: map<string, FieldSpec>, env: Env): Step
    decreases |names|, 1
  {
    if names == [] then Next(p) else Continue(p, names, data, env)
  }

  /** The loop from its first field on: that field's turn, then the rest. */
  function Continue(p: Pass, names: seq<string>, data: map<string, FieldSpec>, env: Env): Step
    requires names != []
    decreases |names|, 0
  {
    match CheckField(p, names[0], SpecOf(data, names[0]), data.Keys, env)
    case Fatal(n) => Fatal(n)
    case Next(q) => CheckFields(q, names[1..], data, env)
  }

  /** One turn of the loop, as the imperative loop takes it at position `i`: a
      fatal turn is the outcome of the rest of the loop, any other turn hands
      its state on to the fields after `i`. */
  lemma CheckFieldsTurn(q: Pass, names: seq<string>, i: nat, data: map<string, FieldSpec>, env: Env,
                        f: FieldSpec, keys: set<string>, r: Step)
    requires i < |names| && f == SpecOf(data, names[i]) && keys == data.Keys
    requires r == CheckField(q, names[i], f, keys, env)
    ensures r.Fatal? ==> CheckFields(q, names[i..], data, env) == Fatal(r.field)
    ensures r.Next? ==> CheckFields(q, names[i..], data, env) == CheckFields(r.pass, names[i + 1..], data, env)
  {
    assert names[i..][0] == names[i];
    assert names[i..][1..] == names[i + 1..];
  }

  // ------------------------------------------------------------- verdict

  /** The failure lists only grow, and the flag stays true exactly when no list grew. */
  predicate Grows(p: Pass, q: Pass)
  {
    && p.require <= q.require && p.incorrect <= q.incorrect
    && p.alternative <= q.alternative && p.confirm <= q.confirm
    && (q.valid <==> p.valid && |q.require| == |p.require| && |q.incorrect| == |p.incorrect|
                     && |q.alternative| == |p.alternative| && |q.confirm| == |p.confirm|)
  }

  lemma GrowsKeepsConsistent(p: Pass, q: Pass)
    requires Consistent(p) && Grows(p, q)
    ensures Consistent(q)
  {
  }

  /** Every failure branch both appends to a list and clears the flag; every
      other branch touches neither. */
  lemma MatchStepGrows(q: Pass, name: string, f: FieldSpec, env: Env)
    ensures Grows(q, MatchStep(q, name, f, env))
  {
  }

  lemma PatternPhaseGrows(q: Pass, name: string, f: FieldSpec, env: Env)
    ensures PatternPhase(q, name, f, env).Next? ==> Grows(q, PatternPhase(q, name, f, env).pass)
  {
    if !(!Required(f) && Empty(Lookup(q.post, name))) && !EmptyPattern(f) {
      MatchStepGrows(q, name, f, env);
    }
  }

  lemma RequireStepGrows(q: Pass, name: string, f: FieldSpec, keys: set<string>, env: Env)
    ensures RequireStep(q, name, f, keys, env).Next? ==> Grows(q, RequireStep(q, name, f, keys, env).pass)
  {
    var q1 := q.(post := TrimBound(q.post, name));
    if !Blank(Lookup(q1.post, name)) {
      PatternPhaseGrows(q1, name, f, env);
    }
  }

  lemma CheckFieldGrows(p: Pass, name: string, f: FieldSpec, keys: set<string>, env: Env)
    ensures CheckField(p, name, f, keys, env).Next? ==> Grows(p, CheckField(p, name, f, keys, env).pass)
  {
    if !HasTag(f, TagCaptcha) {
      var q := Prepare(p, name, f, env);
      assert Grows(p, q);
      if HasTag(f, TagUpload) && Required(f) {
      } else if AlternativeFires(q.post, name, f, keys) {
      } else if ConfirmTarget(f, keys).Some? {
      } else if Required(f) {
        RequireStepGrows(q, name, f, keys, env);
      } else {
        PatternPhaseGrows(q, name, f, env);
      }
    }
  }

  lemma SameElsewhereTrans(a: map<string, Value>, b: map<string, Value>, c: map<string, Value>, name: string)
    requires SameElsewhere(a, b, name) && SameElsewhere(b, c, name)
    ensures SameElsewhere(a, c, name)
  {
  }

  lemma ModifiedLocal(post: map<string, Value>, name: string, mods: Option<seq<string>>,
                      apply: (string, Value) -> Value)
    ensures SameElsewhere(post, Modified(post, name, mods, apply), name)
  {
  }

  lemma PrepareLocal(p: Pass, name: string, f: FieldSpec, env: Env)
    ensures SameElsewhere(p.post, Prepare(p, name, f, env).post, name)
  {
    var m := Modified(p.post, name, f.inputModifiers, env.applyModifier);
    ModifiedLocal(p.post, name, f.inputModifiers, env.applyModifier);
    assert SameElsewhere(m, Rebind(m, name, f), name);
    SameElsewhereTrans(p.post, m, Rebind(m, name, f), name);
  }

  lemma MatchStepLocal(q: Pass, name: string, f: FieldSpec, env: Env)
    ensures SameElsewhere(q.post, MatchStep(q, name, f, env).post, name)
  {
    var post1 := if PrunesFirst(f) then Shift(q.post, name) else q.post;
    assert SameElsewhere(q.post, post1, name);
    ModifiedLocal(post1, name, f.outputModifiers, env.applyModifier);
    assert SameElsewhere(post1, MatchStep(q, name, f, env).post, name);
    SameElsewhereTrans(q.post, post1, MatchStep(q, name, f, env).post, name);
  }

  lemma PatternPhaseLocal(q: Pass, name: string, f: FieldSpec, env: Env)
    ensures PatternPhase(q, name, f, env).Next? ==> SameElsewhere(q.post, PatternPhase(q, name, f, env).pass.post, name)
  {
    ModifiedLocal(q.post, name, f.outputModifiers, env.applyModifier);
    MatchStepLocal(q, name, f, env);
  }

  lemma RequireStepLocal(q: Pass, name: string, f: FieldSpec, keys: set<string>, env: Env)
    ensures RequireStep(q, name, f, keys, env).Next? ==>
      SameElsewhere(q.post, RequireStep(q, name, f, keys, env).pass.post, name)
  {
    var q1 := q.(post := TrimBound(q.post, name));
    assert SameElsewhere(q.post, q1.post, name);
    PatternPhaseLocal(q1, name, f, env);
    if RequireStep(q, name, f, keys, env).Next? {
      SameElsewhereTrans(q.post, q1.post, RequireStep(q, name, f, keys, env).pass.post, name);
    }
  }

  /** A turn changes the bound set at its own field only. */
  lemma CheckFieldLocal(p: Pass, name: string, f: FieldSpec, keys: set<string>, env: Env)
    ensures CheckField(p, name, f, keys, env).Next? ==>
      SameElsewhere(p.post, CheckField(p, name, f, keys, env).pass.post, name)
  {
    if !HasTag(f, TagCaptcha) {
      var q := Prepare(p, name, f, env);
      PrepareLocal(p, name, f, env);
      var r := CheckField(p, name, f, keys, env);
      if r.Next? {
        if HasTag(f, TagUpload) && Required(f) {
        } else if AlternativeFires(q.post, name, f, keys) {
        } else if ConfirmTarget(f, keys).Some? {
          assert SameElsewhere(q.post, r.pass.post, name);
        } else if Required(f) {
          RequireStepLocal(q, name, f, keys, env);
        } else {
          PatternPhaseLocal(q, name, f, env);
        }
        SameElsewhereTrans(p.post, q.post, r.pass.post, name);
      }
    }
  }

  lemma {:induction false} CheckFieldsConsistent(p: Pass, names: seq<string>,
                                                 data: map<string, FieldSpec>, env: Env)
    requires Consistent(p)
    ensures CheckFields(p, names, data, env).Next? ==> Consistent(CheckFields(p, names, data, env).pass)
    decreases |names|
  {
    if names != [] {
      var n := names[0];
      var r := CheckField(p, n, SpecOf(data, n), data.Keys, env);
      CheckFieldGrows(p, n, SpecOf(data, n), data.Keys, env);
      if r.Next? {
        GrowsKeepsConsistent(p, r.pass);
        CheckFieldsConsistent(r.pass, names[1..], data, env);
      }
    }
  }

  /** After the loop, the form is valid exactly when all four failure lists are empty. */
  lemma CheckFieldsVerdict(post: map<string, Value>, names: seq<string>,
                           data: map<string, FieldSpec>, env: Env)
    ensures var r := CheckFields(Start(post), names, data, env);
      r.Next? ==> (r.pass.valid <==> NoFailures(r.pass))
  {
    CheckFieldsConsistent(Start(post), names, data, env);
  }

  // ------------------------------------------------------- branch properties

  /** The `type` switch, for a field that is not a checkbox group: a submit
      control loses its value; a checkbox that is unset or not loosely equal to
      its `value` attribute is rebound to `valueOff`, a checked one is kept; a
      field with no type or another type is left alone. */
  lemma RebindTypeSwitch(post: map<string, Value>, name: string, f: FieldSpec)
    requires !HasTag(f, TagCheckboxGroup)
    ensures var t := Attribute(f, "type");
      var r := Rebind(post, name, f);
      && (t != Null && LooseEquals(t, Str("submit")) ==> r == post - {name})
      && (t != Null && !LooseEquals(t, Str("submit")) && LooseEquals(t, Str("checkbox")) ==>
            r == (if !IsSet(post, name) || !LooseEquals(post[name], Attribute(f, "value"))
                  then post[name := Attribute(f, "valueOff")] else post))
      && (t == Null || (!LooseEquals(t, Str("submit")) && !LooseEquals(t, Str("checkbox"))) ==> r == post)
  {
  }

  /** A checkbox group is always bound after rebinding: one with no type
      attribute and no bound value gets the empty list, and a bound one keeps
      its value. */
  lemma RebindCheckboxGroup(post: map<string, Value>, name: string, f: FieldSpec)
    requires HasTag(f, TagCheckboxGroup)
    ensures IsSet(Rebind(post, name, f), name)
    ensures Attribute(f, "type") == Null ==>
      Rebind(post, name, f) == (if IsSet(post, name) then post else post[name := Arr([])])
  {
  }

  /** A submit control is not skipped by the `continue` in the `switch`, which
      only leaves the `switch`: its value is dropped and the field goes on
      through the later checks, so a required one is recorded as missing and
      an optional one only gets its output modifiers. */
  lemma SubmitFallsThrough(p: Pass, name: string, f: FieldSpec, keys: set<string>, env: Env)
    requires !HasTag(f, TagCaptcha) && !HasTag(f, TagUpload) && !HasTag(f, TagCheckboxGroup)
    requires f.inputModifiers.None? || f.inputModifiers.value == []
    requires Attribute(f, "type") == Str("submit")
    requires AlternativeTarget(f, keys).None? && ConfirmTarget(f, keys).None?
    ensures var q := p.(post := p.post - {name});
      && (Required(f) ==> CheckField(p, name, f, keys, env) == Next(FailRequire(q, name)))
      && (!Required(f) ==>
            CheckField(p, name, f, keys, env)
              == Next(q.(post := Modified(q.post, name, f.outputModifiers, env.applyModifier))))
  {
    var q := p.(post := p.post - {name});
    RebindTypeSwitch(p.post, name, f);
    assert Prepare(p, name, f, env) == q;
    assert TrimBound(q.post, name) == q.post;
    assert q.(post := TrimBound(q.post, name)) == q;
  }

  /** An unchecked checkbox is rebound to its `valueOff` before any later
      check sees it. */
  lemma UncheckedCheckbox(p: Pass, name: string, f: FieldSpec, keys: set<string>, env: Env)
    requires !HasTag(f, TagCaptcha) && !HasTag(f, TagUpload) && !HasTag(f, TagCheckboxGroup) && !Required(f)
    requires f.inputModifiers.None? || f.inputModifiers.value == []
    requires Attribute(f, "type") == Str("checkbox")
    requires !IsSet(p.post, name) || !LooseEquals(p.post[name], Attribute(f, "value"))
    requires AlternativeTarget(f, keys).None? && ConfirmTarget(f, keys).None?
    ensures CheckField(p, name, f, keys, env)
              == PatternPhase(p.(post := p.post[name := Attribute(f, "valueOff")]), name, f, env)
  {
    RebindTypeSwitch(p.post, name, f);
    assert Prepare(p, name, f, env) == p.(post := p.post[name := Attribute(f, "valueOff")]);
  }

  /** A required upload field with no upload this pass and no stored or bound
      value is a required failure, whatever else it declares; with any of them
      it passes; either way nothing else is checked. */
  lemma UploadGate(p: Pass, name: string, f: FieldSpec, keys: set<string>, env: Env)
    requires !HasTag(f, TagCaptcha) && HasTag(f, TagUpload) && Required(f)
    ensures var q := Prepare(p, name, f, env);
      CheckField(p, name, f, keys, env)
        == Next(if NoUpload(q.post, name, f) then FailRequire(q, name) else q)
  {
  }

  /** A captcha field's value always leaves the bound set, and exactly one of
      "required", "incorrect" and "challenge invalidated" happens to it. */
  lemma CaptchaOutcome(p: Pass, name: string, f: FieldSpec, keys: set<string>, env: Env)
    requires HasTag(f, TagCaptcha)
    ensures var r := CheckField(p, name, f, keys, env);
      && r.Next? && name !in r.pass.post
      && (r.pass.require == p.require + [name] || r.pass.require == p.require)
      && (r.pass.incorrect == p.incorrect + [name] || r.pass.incorrect == p.incorrect)
      && (r.pass.consumed == p.consumed + [name] || r.pass.consumed == p.consumed)
      && (|r.pass.require| - |p.require|) + (|r.pass.incorrect| - |p.incorrect|)
         + (|r.pass.consumed| - |p.consumed|) == 1
      && (r.pass.consumed != p.consumed <==>
            (!Empty(Lookup(p.post, name)) && LooseEquals(env.captchaValue(name), Lookup(p.post, name))))
  {
  }

  /** The alternative pair: when both values are empty the pair (name, target)
      is appended and the form is invalid; when either holds a value this turn
      records no alternative failure. */
  lemma AlternativePair(p: Pass, name: string, f: FieldSpec, keys: set<string>, env: Env, t: string)
    requires !HasTag(f, TagCaptcha) && !(HasTag(f, TagUpload) && Required(f))
    requires f.isAlternativeFor == Some(t) && t in keys
    ensures var q := Prepare(p, name, f, env);
      var r := CheckField(p, name, f, keys, env);
      && (Empty(Lookup(q.post, t)) && Empty(Lookup(q.post, name)) ==>
            r == Next(q.(alternative := p.alternative + [(name, t)], valid := false)))
      && (!Empty(Lookup(q.post, t)) || !Empty(Lookup(q.post, name)) ==>
            r.Next? ==> r.pass.alternative == p.alternative)
  {
  }

  /** The confirm pair, once the alternative branch has let the field through:
      an unbound target drops the value quietly, a different value records
      (name, target) and invalidates the form, an equal value is dropped quietly. */
  lemma ConfirmPair(p: Pass, name: string, f: FieldSpec, keys: set<string>, env: Env, t: string)
    requires !HasTag(f, TagCaptcha) && !(HasTag(f, TagUpload) && Required(f))
    requires f.isConfirmFor == Some(t) && t in keys
    requires !AlternativeFires(Prepare(p, name, f, env).post, name, f, keys)
    ensures var q := Prepare(p, name, f, env);
      var r := CheckField(p, name, f, keys, env);
      && r.Next? && r.pass.require == p.require && r.pass.incorrect == p.incorrect
      && r.pass.alternative == p.alternative
      && (!IsSet(q.post, t) ==> r.pass == q.(post := q.post - {name}))
      && (IsSet(q.post, t) && !LooseEquals(Lookup(q.post, name), Lookup(q.post, t)) ==>
            r.pass == q.(confirm := p.confirm + [(name, t)], valid := false))
      && (IsSet(q.post, t) && LooseEquals(Lookup(q.post, name), Lookup(q.post, t)) ==>
            r.pass == q.(post := q.post - {name}))
  {
  }

  /** A required field whose trimmed value is the integer 0 or the string "0"
      is never recorded by the required-empty check. */
  lemma RequiredZeroIsPresent(p: Pass, name: string, f: FieldSpec, keys: set<string>, env: Env)
    requires !HasTag(f, TagCaptcha) && !(HasTag(f, TagUpload) && Required(f)) && Required(f)
    requires var q := Prepare(p, name, f, env);
      Lookup(TrimBound(q.post, name), name) in {Int(0), Str("0")}
    ensures var r := CheckField(p, name, f, keys, env);
      r.Next? ==> r.pass.require == p.require
  {
    var q := Prepare(p, name, f, env);
    if !AlternativeFires(q.post, name, f, keys) && ConfirmTarget(f, keys).None? {
      var q1 := q.(post := TrimBound(q.post, name));
      assert !Blank(Lookup(q1.post, name));
      assert CheckField(p, name, f, keys, env) == PatternPhase(q1, name, f, env);
      PatternPhaseKeepsRequire(q1, name, f, env);
    }
  }

  /** From the optional-empty check on, nothing is added to the required list. */
  lemma PatternPhaseKeepsRequire(q: Pass, name: string, f: FieldSpec, env: Env)
    ensures var r := PatternPhase(q, name, f, env);
      r.Next? ==> r.pass.require == q.require
  {
  }

  /** The pattern step on a list: it passes exactly when every element matches;
      otherwise the field is recorded as incorrect, its value removed and the form invalid. */
  lemma ListPattern(q: Pass, name: string, f: FieldSpec, env: Env, xs: seq<Value>)
    requires Lookup(if PrunesFirst(f) then Shift(q.post, name) else q.post, name) == Arr(xs)
    ensures var r := MatchStep(q, name, f, env);
      var ok := forall i :: 0 <= i < |xs| ==> ElementMatches(xs[i], PatternOf(f), env.matches);
      && (ok ==> r.incorrect == q.incorrect && r.valid == q.valid)
      && (!ok ==> r.incorrect == q.incorrect + [name] && name !in r.post && !r.valid)
  {
  }

  /** An optional field left empty is never matched against its pattern. */
  lemma OptionalEmptySkipsPattern(q: Pass, name: string, f: FieldSpec, env: Env)
    requires !Required(f) && Empty(Lookup(q.post, name))
    ensures PatternPhase(q, name, f, env)
              == Next(q.(post := Modified(q.post, name, f.outputModifiers, env.applyModifier)))
  {
  }

  // ------------------------------------------------------------ scenarios

  /** A loop over one field is one turn. */
  lemma CheckFieldsOne(p: Pass, n: string, data: map<string, FieldSpec>, env: Env)
    ensures CheckFields(p, [n], data, env) == CheckField(p, n, SpecOf(data, n), data.Keys, env)
  {
    assert [n][1..] == [];
    assert CheckFields(p, [n], data, env) == Continue(p, [n], data, env);
  }

  /** A required field with a non-empty pattern, no modifiers and no `type`
      attribute, whose value is unchanged by trimming, not blank and matching,
      is accepted with nothing changed. A normalised field has empty modifier
      lists, which do nothing. */
  lemma RequiredMatchAccepted(p: Pass, name: string, f: FieldSpec, keys: set<string>, env: Env, s: string)
    requires !HasTag(f, TagCaptcha) && !HasTag(f, TagUpload) && !HasTag(f, TagSelect) && Required(f)
    requires f.inputModifiers.None? || f.inputModifiers.value == []
    requires f.outputModifiers.None? || f.outputModifiers.value == []
    requires Attribute(f, "type") == Null
    requires f.isAlternativeFor.None? && f.isConfirmFor.None? && !EmptyPattern(f)
    requires Lookup(p.post, name) == Str(s) && |s| > 0 && !IsTrimChar(s[0]) && !IsTrimChar(s[|s| - 1])
    requires PregMatch(PatternOf(f), s, env.matches)
    ensures CheckField(p, name, f, keys, env) == Next(p)
  {
    TrimKeepsClean(s);
    assert Prepare(p, name, f, env) == p;
    assert TrimBound(p.post, name) == p.post;
    assert p.(post := p.post) == p;
  }

  /** The required numeric field of the zero scenario. */
  const NumericField: FieldSpec := EmptySpec.(tag := Some(TagInput), require := Some(true), regExp := Some("Numeric"))

  /** A required numeric field, normalised as `cleanData` leaves it, submitted
      as "0" is accepted, keeps its value and leaves the verdict alone. */
  lemma ZeroIsAccepted(p: Pass, name: string, keys: set<string>, env: Env)
    requires Lookup(p.post, name) == Str("0")
    requires env.matches(RegExpNumeric, "0")
    ensures CheckField(p, name, CleanSpec(NumericField), keys, env) == Next(p)
  {
    var f := CleanSpec(NumericField);
    assert f.regExp == Some("Numeric") && f.attributes == Some(map[]);
    assert Attribute(f, "type") == Null;
    GetRegExpNamed("Numeric");
    RequiredMatchAccepted(p, name, f, keys, env, "0");
  }

  /** A required submit control and an optional checkbox, as declared. */
  const SubmitField: FieldSpec :=
    EmptySpec.(tag := Some(TagInput), require := Some(true), regExp := Some("Text"),
               attributes := Some(map["type" := Str("submit")]))
  const CheckboxField: FieldSpec :=
    EmptySpec.(tag := Some(TagInput),
               attributes := Some(map["type" := Str("checkbox"), "value" := Str("on"), "valueOff" := Str("off")]))

  /** The normalised required submit control: whatever was submitted, its
      value is dropped and it is recorded as missing. */
  lemma SubmitScenario(p: Pass, name: string, keys: set<string>, env: Env)
    ensures CheckField(p, name, CleanSpec(SubmitField), keys, env)
              == Next(FailRequire(p.(post := p.post - {name}), name))
  {
    var f := CleanSpec(SubmitField);
    assert f.tag == Some(TagInput) && f.require == Some(true) && f.inputModifiers == Some([]);
    assert f.attributes == Some(map["type" := Str("submit")]);
    assert f.isAlternativeFor.None? && f.isConfirmFor.None?;
    SubmitFallsThrough(p, name, f, keys, env);
  }

  /** The normalised checkbox left unticked: it is bound to "off" and accepted. */
  lemma CheckboxScenario(p: Pass, name: string, keys: set<string>, env: Env)
    requires name !in p.post
    ensures CheckField(p, name, CleanSpec(CheckboxField), keys, env)
              == Next(p.(post := p.post[name := Str("off")]))
  {
    var f := CleanSpec(CheckboxField);
    assert f.tag == Some(TagInput) && f.require == Some(false) && f.inputModifiers == Some([]);
    assert f.outputModifiers == Some([]) && f.regExp == Some("");
    assert f.attributes == CheckboxField.attributes;
    assert f.isAlternativeFor.None? && f.isConfirmFor.None?;
    UncheckedCheckbox(p, name, f, keys, env);
  }

  /** The fields of the confirmation scenario: a required password and its confirmation. */
  const PasswordField: FieldSpec := EmptySpec.(tag := Some(TagInput), require := Some(true), regExp := Some("Password"))
  const PasswordAgainField: FieldSpec := EmptySpec.(tag := Some(TagInput), isConfirmFor := Some("password"))

  /** The schema of the confirmation scenario as declared, and as `cleanData` leaves it. */
  const MismatchSchema: map<string, FieldSpec> :=
    map["password" := PasswordField, "password_confirm" := PasswordAgainField]
  const MismatchData: map<string, FieldSpec> :=
    map["password" := CleanSpec(PasswordField), "password_confirm" := CleanSpec(PasswordAgainField)]

  /** The submission of the confirmation scenario. */
  const MismatchPost: map<string, Value> :=
    map["password" := Str("abc123"), "password_confirm" := Str("abc124")]

  /** The password matches its pattern, so its turn changes nothing. */
  lemma PasswordTurn(env: Env)
    requires env.matches(RegExpPassword, "abc123")
    ensures CheckFields(Start(MismatchPost), ["password", "password_confirm"], MismatchData, env)
              == CheckFields(Start(MismatchPost), ["password_confirm"], MismatchData, env)
  {
    var names := ["password", "password_confirm"];
    var q := Start(MismatchPost);
    var f := CleanSpec(PasswordField);
    assert SpecOf(MismatchData, "password") == f;
    assert CheckField(q, "password", f, MismatchData.Keys, env) == Next(q) by {
      assert f.regExp == Some("Password") && f.attributes == Some(map[]);
      assert Attribute(f, "type") == Null;
      assert PatternOf(f) == RegExpPassword by { GetRegExpNamed("Password"); }
      RequiredMatchAccepted(q, "password", f, MismatchData.Keys, env, "abc123");
    }
    assert names[0..] == names && names[1..] == ["password_confirm"];
    CheckFieldsTurn(q, names, 0, MismatchData, env, f, MismatchData.Keys, Next(q));
  }

  /** The confirmation differs from the bound password: the pair is recorded. */
  lemma ConfirmationTurn(env: Env)
    ensures var q := Start(MismatchPost);
      CheckFields(q, ["password_confirm"], MismatchData, env)
        == Next(q.(confirm := [("password_confirm", "password")], valid := false))
  {
    var q := Start(MismatchPost);
    var f := CleanSpec(PasswordAgainField);
    assert SpecOf(MismatchData, "password_confirm") == f;
    CheckFieldsOne(q, "password_confirm", MismatchData, env);
    assert f.isConfirmFor == Some("password") && f.inputModifiers == Some([]) && f.attributes == Some(map[]);
    assert Attribute(f, "type") == Null;
    assert Prepare(q, "password_confirm", f, env) == q;
    ConfirmPair(q, "password_confirm", f, MismatchData.Keys, env, "password");
  }

  /** A password and a differing confirmation in the normalised schema, starting
      from a fresh pass: the form is invalid with exactly the confirm pair recorded, and the password
      stays bound. */
  lemma MismatchedConfirmation(env: Env)
    requires env.matches(RegExpPassword, "abc123")
    ensures var r := CheckFields(Start(MismatchPost), ["password", "password_confirm"], MismatchData, env);
      && r.Next? && !r.pass.valid
      && r.pass.confirm == [("password_confirm", "password")]
      && r.pass.require == [] && r.pass.incorrect == [] && r.pass.alternative == []
      && Lookup(r.pass.post, "password") == Str("abc123")
  {
    PasswordTurn(env);
    ConfirmationTurn(env);
  }
}

/**
 * The Human Being form: the values it edits, the rules declared in its
 * `register(...)` options, the `defaultValues` taken from an existing
 * record, and the label of its submit button.
 */
module HumanBeingForm {
  import opened Wrappers
  import opened Types

  /**
   * The form's values. An empty number input or an unchosen select is None; an
   * empty text input is "". Fields without an input carry what defaultValues gave.
   */
  datatype FormValues = FormValues(
    name: string,
    x: Option<int>,
    y: Option<real>,
    realHero: Option<bool>,
    hasToothpick: Option<bool>,
    car: Option<Car>,
    mood: Option<Mood>,
    impactSpeed: Option<real>,
    soundtrackName: Option<string>,
    weaponType: Option<WeaponType>)

  /** The form with no initial data: an empty name and every other field unset. */
  function EmptyForm(): FormValues {
    FormValues("", None, None, None, None, None, None, None, None, None)
  }

  /** `defaultValues`: the nine request fields of `initialData`, or nothing. */
  function DefaultValues(initialData: Option<HumanBeing>): (v: FormValues)
    ensures initialData.None? ==> v == EmptyForm()
  {
    match initialData
    case None => EmptyForm()
    case Some(h) =>
      FormValues(h.name, Some(h.coordinates.x), Some(h.coordinates.y), Some(h.realHero),
                 h.hasToothpick, h.car, h.mood, Some(h.impactSpeed), Some(h.soundtrackName),
                 Some(h.weaponType))
  }

  /** The values read as a create request, when every field it needs is there. */
  function ToRequest(v: FormValues): (r: Option<HumanBeingCreateRequest>)
    ensures r.Some? <==> v.x.Some? && v.y.Some? && v.realHero.Some? && v.impactSpeed.Some?
                         && v.soundtrackName.Some? && v.weaponType.Some?
    ensures r.Some? ==> r.value.name == v.name && r.value.mood == v.mood && r.value.car == v.car
                        && r.value.hasToothpick == v.hasToothpick
  {
    if v.x.Some? && v.y.Some? && v.realHero.Some? && v.impactSpeed.Some?
       && v.soundtrackName.Some? && v.weaponType.Some?
    then Some(HumanBeingCreateRequest(v.name, Coordinates(v.x.value, v.y.value), v.realHero.value,
                                      v.hasToothpick, v.car, v.mood, v.impactSpeed.value,
                                      v.soundtrackName.value, v.weaponType.value))
    else None
  }

  /** The defaults of a record are exactly its request fields: all nine, and nothing else. */
  lemma DefaultValuesCopyRequestFields(h: HumanBeing)
    ensures ToRequest(DefaultValues(Some(h))) == Some(RequestFields(h))
  {
  }

  /** Neither id nor creationDate reaches the form. */
  lemma DefaultValuesIgnoreIdentity(h: HumanBeing, id: int, creationDate: string)
    ensures DefaultValues(Some(h)) == DefaultValues(Some(h.(id := id, creationDate := creationDate)))
  {
  }

  /** The submit button's caption: "Update" when editing a record, "Create" otherwise. */
  function SubmitLabel(initialData: Option<HumanBeing>): (caption: string)
    ensures caption == "Update" <==> initialData.Some?
    ensures caption == "Create" <==> initialData.None?
  {
    if initialData.Some? then "Update" else "Create"
  }

  /** The registered inputs. */
  datatype FieldName = NameField | CoordinateX | CoordinateY | ImpactSpeedField | WeaponTypeField | MoodField

  /** The inputs in the order they are registered. */
  const RegisteredFields: seq<FieldName> :=
    [NameField, CoordinateX, CoordinateY, ImpactSpeedField, WeaponTypeField, MoodField]

  datatype MaxRule = MaxRule(value: real, message: string)

  /** The options passed to `register`: a `required` message and a `max` rule. */
  datatype RegisterOptions = RegisterOptions(required: Option<string>, max: Option<MaxRule>)

  /** The rule table of the form. */
  function OptionsOf(f: FieldName): RegisterOptions {
    match f
    case NameField => RegisterOptions(Some("Name is required"), None)
    case CoordinateX => RegisterOptions(Some("X is required"), Some(MaxRule(15.0, "X cannot exceed 15")))
    case CoordinateY => RegisterOptions(Some("Y is required"), Some(MaxRule(277.0, "Y cannot exceed 277")))
    case ImpactSpeedField =>
      RegisterOptions(Some("Impact speed is required"), Some(MaxRule(664.0, "Impact speed cannot exceed 664")))
    case WeaponTypeField => RegisterOptions(Some("Weapon type is required"), None)
    case MoodField => RegisterOptions(None, None)
  }

  /** What a rule sees of an input: empty, or filled (with a number for number inputs). */
  datatype FieldValue = Blank | Filled(number: Option<real>)

  function ValueOf(v: FormValues, f: FieldName): FieldValue {
    match f
    case NameField => if v.name == "" then Blank else Filled(None)
    case CoordinateX => if v.x.Some? then Filled(Some(v.x.value as real)) else Blank
    case CoordinateY => if v.y.Some? then Filled(Some(v.y.value)) else Blank
    case ImpactSpeedField => if v.impactSpeed.Some? then Filled(Some(v.impactSpeed.value)) else Blank
    case WeaponTypeField => if v.weaponType.Some? then Filled(None) else Blank
    case MoodField => if v.mood.Some? then Filled(None) else Blank
  }

  /** The message of the first rule the value breaks: `required` is checked before `max`. */
  function CheckField(opts: RegisterOptions, value: FieldValue): Option<string> {
    if value.Blank? then opts.required
    else if opts.max.Some? && value.number.Some? && value.number.value > opts.max.value.value
    then Some(opts.max.value.message)
    else None
  }

  /** A field-level error as react-hook-form records it. */
  datatype FieldError = FieldError(field: FieldName, message: string)

  /** The errors of the given fields, in order, at most one per field. */
  function ErrorsFor(v: FormValues, fields: seq<FieldName>): seq<FieldError> {
    if |fields| == 0 then []
    else
      var e := CheckField(OptionsOf(fields[0]), ValueOf(v, fields[0]));
      (if e.Some? then [FieldError(fields[0], e.value)] else []) + ErrorsFor(v, fields[1..])
  }

  /** The errors that block submission. */
  function Validate(v: FormValues): seq<FieldError> {
    ErrorsFor(v, RegisteredFields)
  }

  /** An error is reported exactly for a listed field whose value breaks a rule, with that rule's message. */
  lemma {:induction false} ErrorsForMembership(v: FormValues, fields: seq<FieldName>, e: FieldError)
    ensures e in ErrorsFor(v, fields)
        <==> e.field in fields && CheckField(OptionsOf(e.field), ValueOf(v, e.field)) == Some(e.message)
  {
    if |fields| > 0 {
      ErrorsForMembership(v, fields[1..], e);
      assert fields == [fields[0]] + fields[1..];
    }
  }

  /** The declared rules, stated directly on the values. */
  predicate DeclaredRulesHold(v: FormValues) {
    && v.name != ""
    && v.x.Some? && v.x.value <= 15
    && v.y.Some? && v.y.value <= 277.0
    && v.impactSpeed.Some? && v.impactSpeed.value <= 664.0
    && v.weaponType.Some?
  }

  /** The form accepts its values exactly when the declared rules hold. */
  lemma ValidateAcceptsExactlyDeclaredRules(v: FormValues)
    ensures Validate(v) == [] <==> DeclaredRulesHold(v)
  {
    if Validate(v) == [] {
      forall f | f in RegisteredFields
        ensures CheckField(OptionsOf(f), ValueOf(v, f)).None?
      {
        if CheckField(OptionsOf(f), ValueOf(v, f)).Some? {
          ErrorsForMembership(v, RegisteredFields,
                              FieldError(f, CheckField(OptionsOf(f), ValueOf(v, f)).value));
        }
      }
      assert CheckField(OptionsOf(NameField), ValueOf(v, NameField)).None?;
      assert CheckField(OptionsOf(CoordinateX), ValueOf(v, CoordinateX)).None?;
      assert CheckField(OptionsOf(CoordinateY), ValueOf(v, CoordinateY)).None?;
      assert CheckField(OptionsOf(ImpactSpeedField), ValueOf(v, ImpactSpeedField)).None?;
      assert CheckField(OptionsOf(WeaponTypeField), ValueOf(v, WeaponTypeField)).None?;
    } else {
      var e := Validate(v)[0];
      ErrorsForMembership(v, RegisteredFields, e);
    }
  }

  /** The only error of values that otherwise follow the rules, when one field is changed. */
  lemma {:induction false} SingleError(v: FormValues, f: FieldName, message: string)
    requires forall g :: g in RegisteredFields && g != f ==> CheckField(OptionsOf(g), ValueOf(v, g)).None?
    requires f in RegisteredFields
    requires CheckField(OptionsOf(f), ValueOf(v, f)) == Some(message)
    ensures Validate(v) == [FieldError(f, message)]
  {
    var errs := Validate(v);
    ErrorsForMembership(v, RegisteredFields, FieldError(f, message));
    forall e | e in errs ensures e == FieldError(f, message) {
      ErrorsForMembership(v, RegisteredFields, e);
    }
    assert |RegisteredFields| == 6;
    assert errs == ErrorsFor(v, RegisteredFields);
    AtMostOnePerField(v, RegisteredFields, f);
  }

  /** Distinct fields give distinct error entries, so a field appears at most once. */
  lemma {:induction false} AtMostOnePerField(v: FormValues, fields: seq<FieldName>, f: FieldName)
    requires forall i, j :: 0 <= i < j < |fields| ==> fields[i] != fields[j]
    requires forall g :: g in fields && g != f ==> CheckField(OptionsOf(g), ValueOf(v, g)).None?
    ensures |ErrorsFor(v, fields)| <= 1
  {
    if |fields| > 0 {
      AtMostOnePerField(v, fields[1..], f);
      if fields[0] == f {
        NoErrorsWithout(v, fields[1..], f);
      }
    }
  }

  lemma {:induction false} NoErrorsWithout(v: FormValues, fields: seq<FieldName>, f: FieldName)
    requires f !in fields
    requires forall g :: g in fields && g != f ==> CheckField(OptionsOf(g), ValueOf(v, g)).None?
    ensures ErrorsFor(v, fields) == []
  {
    if |fields| > 0 {
      NoErrorsWithout(v, fields[1..], f);
    }
  }

  /** Name is required: an empty name is the one error of otherwise valid values. */
  lemma NameRequired(v: FormValues)
    requires DeclaredRulesHold(v)
    ensures Validate(v.(name := "")) == [FieldError(NameField, "Name is required")]
  {
    SingleError(v.(name := ""), NameField, "Name is required");
  }

  /** x must be given and at most 15: 15 passes, 16 and a blank fail. */
  lemma XBoundary(v: FormValues)
    requires DeclaredRulesHold(v)
    ensures Validate(v.(x := Some(15))) == []
    ensures Validate(v.(x := Some(16))) == [FieldError(CoordinateX, "X cannot exceed 15")]
    ensures Validate(v.(x := None)) == [FieldError(CoordinateX, "X is required")]
  {
    ValidateAcceptsExactlyDeclaredRules(v.(x := Some(15)));
    SingleError(v.(x := Some(16)), CoordinateX, "X cannot exceed 15");
    SingleError(v.(x := None), CoordinateX, "X is required");
  }

  /** y must be given and at most 277: 277 passes, 277.01 fails. */
  lemma YBoundary(v: FormValues)
    requires DeclaredRulesHold(v)
    ensures Validate(v.(y := Some(277.0))) == []
    ensures Validate(v.(y := Some(277.01))) == [FieldError(CoordinateY, "Y cannot exceed 277")]
    ensures Validate(v.(y := None)) == [FieldError(CoordinateY, "Y is required")]
  {
    ValidateAcceptsExactlyDeclaredRules(v.(y := Some(277.0)));
    SingleError(v.(y := Some(277.01)), CoordinateY, "Y cannot exceed 277");
    SingleError(v.(y := None), CoordinateY, "Y is required");
  }

  /** impactSpeed must be given and at most 664: 664 passes, 664.01 fails. */
  lemma ImpactSpeedBoundary(v: FormValues)
    requires DeclaredRulesHold(v)
    ensures Validate(v.(impactSpeed := Some(664.0))) == []
    ensures Validate(v.(impactSpeed := Some(664.01))) == [FieldError(ImpactSpeedField, "Impact speed cannot exceed 664")]
    ensures Validate(v.(impactSpeed := None)) == [FieldError(ImpactSpeedField, "Impact speed is required")]
  {
    ValidateAcceptsExactlyDeclaredRules(v.(impactSpeed := Some(664.0)));
    SingleError(v.(impactSpeed := Some(664.01)), ImpactSpeedField, "Impact speed cannot exceed 664");
    SingleError(v.(impactSpeed := None), ImpactSpeedField, "Impact speed is required");
  }

  /** The placeholder weapon type is refused; the mood may be left unchosen. */
  lemma WeaponTypeRequiredMoodFree(v: FormValues)
    requires DeclaredRulesHold(v)
    ensures Validate(v.(weaponType := None)) == [FieldError(WeaponTypeField, "Weapon type is required")]
    ensures Validate(v.(mood := None)) == []
  {
    SingleError(v.(weaponType := None), WeaponTypeField, "Weapon type is required");
    ValidateAcceptsExactlyDeclaredRules(v.(mood := None));
  }

  /** No field has a lower bound: any smaller number is accepted as well. */
  lemma NoLowerBounds(v: FormValues, x: int, y: real, impactSpeed: real)
    requires DeclaredRulesHold(v)
    requires x <= v.x.value && y <= v.y.value && impactSpeed <= v.impactSpeed.value
    ensures Validate(v.(x := Some(x), y := Some(y), impactSpeed := Some(impactSpeed))) == []
  {
    ValidateAcceptsExactlyDeclaredRules(v.(x := Some(x), y := Some(y), impactSpeed := Some(impactSpeed)));
  }

  /** An empty form reports the five required fields, in registration order. */
  lemma EmptyFormErrors()
    ensures Validate(EmptyForm()) == [
      FieldError(NameField, "Name is required"),
      FieldError(CoordinateX, "X is required"),
      FieldError(CoordinateY, "Y is required"),
      FieldError(ImpactSpeedField, "Impact speed is required"),
      FieldError(WeaponTypeField, "Weapon type is required")]
  {
    assert RegisteredFields[1..] == [CoordinateX, CoordinateY, ImpactSpeedField, WeaponTypeField, MoodField];
    assert RegisteredFields[1..][1..] == [CoordinateY, ImpactSpeedField, WeaponTypeField, MoodField];
    assert RegisteredFields[1..][1..][1..] == [ImpactSpeedField, WeaponTypeField, MoodField];
    assert RegisteredFields[1..][1..][1..][1..] == [WeaponTypeField, MoodField];
    assert RegisteredFields[1..][1..][1..][1..][1..] == [MoodField];
  }

  /** A record's defaults pass exactly when the record itself keeps the declared bounds. */
  lemma DefaultValuesValid(h: HumanBeing)
    ensures Validate(DefaultValues(Some(h))) == []
        <==> h.name != "" && h.coordinates.x <= 15 && h.coordinates.y <= 277.0 && h.impactSpeed <= 664.0
  {
    ValidateAcceptsExactlyDeclaredRules(DefaultValues(Some(h)));
  }

  /**
   * The form has no input for realHero or soundtrackName. Values that pass
   * every declared rule but lack either reach onSubmit, even though they do
   * not form a create request.
   */
  lemma SubmitWithoutHiddenFields(v: FormValues)
    requires DeclaredRulesHold(v)
    requires v.realHero.None? || v.soundtrackName.None?
    ensures HandleSubmit(v) == Some(v)
    ensures ToRequest(v).None?
  {
  }

  /** A new record whose five checked inputs are filled in passes, yet lacks two request fields. */
  lemma EmptyDefaultsSubmitIncompleteRequest()
    ensures var v := EmptyForm().(name := "Ann", x := Some(0), y := Some(0.0), impactSpeed := Some(0.0),
                                  weaponType := Some(Hammer));
      HandleSubmit(v).Some? && ToRequest(v).None?
  {
    var v := EmptyForm().(name := "Ann", x := Some(0), y := Some(0.0), impactSpeed := Some(0.0),
                          weaponType := Some(Hammer));
    SubmitWithoutHiddenFields(v);
  }

  /** `handleSubmit(onSubmit)`: the values go to onSubmit only when no rule is broken. */
  function HandleSubmit(v: FormValues): (submitted: Option<FormValues>)
    ensures submitted.Some? <==> DeclaredRulesHold(v)
    ensures submitted.Some? ==> submitted.value == v
  {
    ValidateAcceptsExactlyDeclaredRules(v);
    if Validate(v) == [] then Some(v) else None
  }
}

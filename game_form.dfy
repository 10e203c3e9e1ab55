/**
 * GameForm: a Formik form over the five game fields with an all-fields-required schema. On
 * submit it hands the values to the parent's `addGame` or `updateGame` and clears itself; while
 * the parent is editing a game it fills itself with that game's fields.
 */
module GameForm {
  import opened Wrappers
  import opened Catalog
  import opened Validation

  /** `validationSchema`: every field required, the image also a URL (that test comes first). */
  const SCHEMA: Schema := Schema(
    [Required(TITLE_REQUIRED)],
    [Required(RATING_REQUIRED)],
    [Required(CONSOLE_REQUIRED)],
    [Required(GENRE_REQUIRED)],
    [Url(IMAGE_INVALID), Required(IMAGE_REQUIRED)])

  /** The verdict of one field's chain: blank fails "required"; a non-URL image fails the URL test. */
  lemma FieldEntry(v: GameValues, f: Field, isUrl: string -> bool)
    ensures var errors := Validate(SCHEMA, v, isUrl);
      && (f in errors <==> FieldValue(v, f) == "" || (f == Image && !isUrl(v.image)))
      && (FieldValue(v, f) == "" ==> errors[f] == RequiredMessage(f))
      && (f == Image && v.image != "" && !isUrl(v.image) ==> errors[f] == IMAGE_INVALID)
  {
    var rules := RulesFor(SCHEMA, f);
    var s := FieldValue(v, f);
    if f == Image {
      assert rules == [rules[0]] + ([rules[1]] + []);
      FirstErrorCons(rules[1], [], s, isUrl);
      FirstErrorCons(rules[0], [rules[1]] + [], s, isUrl);
    } else {
      assert rules == [Required(RequiredMessage(f))] + [];
      FirstErrorCons(rules[0], [], s, isUrl);
    }
    assert FieldError(SCHEMA, v, f, isUrl) == FirstError(rules, s, isUrl);
  }

  /**
   * The errors Formik holds for `v`: a field has one exactly when it is blank, or it is the
   * image and not a URL; a blank field reports its "required" message.
   */
  function Errors(v: GameValues, isUrl: string -> bool): (errors: map<Field, string>)
    ensures forall f :: f in errors <==> FieldValue(v, f) == "" || (f == Image && !isUrl(v.image))
    ensures forall f :: FieldValue(v, f) == "" ==> f in errors && errors[f] == RequiredMessage(f)
    ensures v.image != "" && !isUrl(v.image) ==> Image in errors && errors[Image] == IMAGE_INVALID
  {
    var errors := Validate(SCHEMA, v, isUrl);
    assert forall f :: (f in errors <==> FieldValue(v, f) == "" || (f == Image && !isUrl(v.image)))
                       && (FieldValue(v, f) == "" ==> errors[f] == RequiredMessage(f)) by {
      forall f
        ensures (f in errors <==> FieldValue(v, f) == "" || (f == Image && !isUrl(v.image)))
                && (FieldValue(v, f) == "" ==> errors[f] == RequiredMessage(f))
      {
        FieldEntry(v, f, isUrl);
      }
    }
    FieldEntry(v, Image, isUrl);
    errors
  }

  /** The blank form has exactly five errors, one "required" message per field. */
  lemma EmptyFormErrors(isUrl: string -> bool)
    ensures var errors := Errors(EMPTY_VALUES, isUrl); |errors| == 5 && forall f :: f in errors && errors[f] == RequiredMessage(f)
  {
    var v := EMPTY_VALUES;
    var errors := Errors(v, isUrl);
    forall f
      ensures FieldValue(v, f) == "" && (f in errors <==> f in ALL_FIELDS)
    {
      AllFieldsComplete(f);
      match f
      case Title =>
      case Rating =>
      case Console =>
      case Genre =>
      case Image =>
    }
    assert errors.Keys == ALL_FIELDS;
    AllFieldsComplete(Title);
  }

  /**
   * What is displayed under a field that is not the image: its "required" message exactly
   * when it is touched and blank, nothing otherwise.
   */
  lemma ShownRequiredIff(v: GameValues, touched: set<Field>, f: Field, isUrl: string -> bool)
    requires f != Image
    ensures VisibleError(Errors(v, isUrl), touched, f) ==
      if f in touched && FieldValue(v, f) == "" then Some(RequiredMessage(f)) else None
  {
  }

  /** What `onSubmit` passes up: `updateGame` while editing a current game, `addGame` otherwise. */
  datatype Dispatch = AddGame(game: Game) | UpdateGame(game: Game)

  /** The Formik state of the form: its values and the set of touched fields. */
  class GameForm {
    var values: GameValues
    var touched: set<Field>

    constructor ()
      ensures values == EMPTY_VALUES && touched == {}
    {
      values, touched := EMPTY_VALUES, {};
    }

    /** `formik.handleChange` on one input: only that value changes. */
    method ChangeField(f: Field, s: string)
      modifies this`values
      ensures values == WithField(old(values), f, s)
    {
      values := WithField(values, f, s);
    }

    /** `formik.handleBlur` on one input: the field becomes touched. */
    method BlurField(f: Field)
      modifies this`touched
      ensures touched == old(touched) + {f}
    {
      touched := touched + {f};
    }

    /**
     * The effect on `[isEditing, currentGame]`: while editing a game, the values become
     * exactly that game's five fields; `touched` is left alone.
     */
    method Prefill(isEditing: bool, currentGame: Option<Game>)
      modifies this`values
      ensures isEditing && currentGame.Some? ==> values == currentGame.value.values
      ensures !(isEditing && currentGame.Some?) ==> values == old(values)
    {
      if isEditing && currentGame.Some? {
        var g := currentGame.value.values;
        values := GameValues(g.title, g.rating, g.console, g.genre, g.image);
      }
    }

    /**
     * `onSubmit`: the values go to `updateGame` with `id` overwritten by the current game's
     * id while editing one, otherwise to `addGame` as they are (no id); then `resetForm()`
     * clears the form at once, before any server response.
     */
    method OnSubmit(isEditing: bool, currentGame: Option<Game>) returns (d: Dispatch)
      modifies this`values, this`touched
      ensures isEditing && currentGame.Some? ==> d == UpdateGame(Game(currentGame.value.id, old(values)))
      ensures !(isEditing && currentGame.Some?) ==> d == AddGame(Game(None, old(values)))
      ensures values == EMPTY_VALUES && touched == {}
    {
      var gameData := values;
      if isEditing && currentGame.Some? {
        d := UpdateGame(Game(currentGame.value.id, gameData));
      } else {
        d := AddGame(Game(None, gameData));
      }
      values, touched := EMPTY_VALUES, {};
    }

    /** The error line under field `f`: shown when the field is touched and has an error. */
    function ShownError(f: Field, isUrl: string -> bool): (shown: Option<string>)
      reads this
      ensures shown.Some? <==> f in touched && (FieldValue(values, f) == "" || (f == Image && !isUrl(values.image)))
      ensures shown.Some? ==> shown.value == Errors(values, isUrl)[f]
    {
      VisibleError(Errors(values, isUrl), touched, f)
    }
  }
}

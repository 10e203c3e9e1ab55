/**
 * GameManager: a Formik form over the five game fields with a per-field Yup schema, a list of
 * games, and the handlers that create or update a game on submit and delete one on request.
 */
module GameManager {
  import opened Wrappers
  import opened Catalog
  import opened Http
  import opened Validation
  import opened Reconcile

  const RATINGS: set<string> := {"e", "t", "m"}
  const CONSOLES: set<string> := {"playstation", "xbox", "pc", "nintendo switch"}

  const TITLE_TOO_SHORT := "Title must be at least 2 characters"
  const TITLE_TOO_LONG := "Title must be less than 60 characters"
  const RATING_INVALID := "Rating must be either E, T, or M"
  const CONSOLE_INVALID := "Console must be either PlayStation, Xbox, PC, or Nintendo Switch"
  const GENRE_TOO_SHORT := "Genre must be more than 2 characters"

  /** `validationSchema`: each field's chain in declaration order. */
  const SCHEMA: Schema := Schema(
    [Required(TITLE_REQUIRED), MinLength(2, TITLE_TOO_SHORT), MaxLength(60, TITLE_TOO_LONG)],
    [Required(RATING_REQUIRED), LowerOneOf(RATINGS, RATING_INVALID)],
    [Required(CONSOLE_REQUIRED), LowerOneOf(CONSOLES, CONSOLE_INVALID)],
    [Required(GENRE_REQUIRED), MinLength(2, GENRE_TOO_SHORT)],
    [Url(IMAGE_INVALID), Required(IMAGE_REQUIRED)])

  // What each field accepts, stated on its own, apart from the rule chains.

  predicate TitleAccepted(t: string) { 2 <= Utf16Length(t) <= 60 }
  predicate RatingAccepted(r: string) { Lower(r) in RATINGS }
  predicate ConsoleAccepted(c: string) { Lower(c) in CONSOLES }
  predicate GenreAccepted(g: string) { Utf16Length(g) >= 2 }
  predicate ImageAccepted(i: string, isUrl: string -> bool) { i != "" && isUrl(i) }

  predicate DraftAccepted(v: GameValues, isUrl: string -> bool) {
    TitleAccepted(v.title) && RatingAccepted(v.rating) && ConsoleAccepted(v.console)
    && GenreAccepted(v.genre) && ImageAccepted(v.image, isUrl)
  }

  // Each field's entry in the error map, worked out rule by rule along its chain.

  lemma TitleEntry(v: GameValues, isUrl: string -> bool)
    ensures var errors := Validate(SCHEMA, v, isUrl);
      && (Title in errors <==> !TitleAccepted(v.title))
      && (v.title == "" ==> errors[Title] == TITLE_REQUIRED)
      && (Utf16Length(v.title) == 1 ==> errors[Title] == TITLE_TOO_SHORT)
      && (Utf16Length(v.title) > 60 ==> errors[Title] == TITLE_TOO_LONG)
  {
    var rules := RulesFor(SCHEMA, Title);
    assert rules == [rules[0]] + ([rules[1]] + ([rules[2]] + []));
    FirstErrorCons(rules[2], [], v.title, isUrl);
    FirstErrorCons(rules[1], [rules[2]] + [], v.title, isUrl);
    FirstErrorCons(rules[0], [rules[1]] + ([rules[2]] + []), v.title, isUrl);
    assert FieldError(SCHEMA, v, Title, isUrl) == FirstError(rules, v.title, isUrl);
  }

  lemma RatingEntry(v: GameValues, isUrl: string -> bool)
    ensures var errors := Validate(SCHEMA, v, isUrl);
      && (Rating in errors <==> !RatingAccepted(v.rating))
      && (v.rating == "" ==> errors[Rating] == RATING_REQUIRED)
      && (v.rating != "" && !RatingAccepted(v.rating) ==> errors[Rating] == RATING_INVALID)
  {
    var rules := RulesFor(SCHEMA, Rating);
    assert rules == [rules[0]] + ([rules[1]] + []);
    FirstErrorCons(rules[1], [], v.rating, isUrl);
    FirstErrorCons(rules[0], [rules[1]] + [], v.rating, isUrl);
    if v.rating == "" {
      assert |Lower(v.rating)| == 0;
      assert Lower(v.rating) !in RATINGS;
    }
    assert FieldError(SCHEMA, v, Rating, isUrl) == FirstError(rules, v.rating, isUrl);
  }

  lemma ConsoleEntry(v: GameValues, isUrl: string -> bool)
    ensures var errors := Validate(SCHEMA, v, isUrl);
      && (Console in errors <==> !ConsoleAccepted(v.console))
      && (v.console == "" ==> errors[Console] == CONSOLE_REQUIRED)
      && (v.console != "" && !ConsoleAccepted(v.console) ==> errors[Console] == CONSOLE_INVALID)
  {
    var rules := RulesFor(SCHEMA, Console);
    assert rules == [rules[0]] + ([rules[1]] + []);
    FirstErrorCons(rules[1], [], v.console, isUrl);
    FirstErrorCons(rules[0], [rules[1]] + [], v.console, isUrl);
    if v.console == "" {
      assert |Lower(v.console)| == 0;
      assert Lower(v.console) !in CONSOLES;
    }
    assert FieldError(SCHEMA, v, Console, isUrl) == FirstError(rules, v.console, isUrl);
  }

  lemma GenreEntry(v: GameValues, isUrl: string -> bool)
    ensures var errors := Validate(SCHEMA, v, isUrl);
      && (Genre in errors <==> !GenreAccepted(v.genre))
      && (v.genre == "" ==> errors[Genre] == GENRE_REQUIRED)
      && (Utf16Length(v.genre) == 1 ==> errors[Genre] == GENRE_TOO_SHORT)
  {
    var rules := RulesFor(SCHEMA, Genre);
    assert rules == [rules[0]] + ([rules[1]] + []);
    FirstErrorCons(rules[1], [], v.genre, isUrl);
    FirstErrorCons(rules[0], [rules[1]] + [], v.genre, isUrl);
    assert FieldError(SCHEMA, v, Genre, isUrl) == FirstError(rules, v.genre, isUrl);
  }

  /** The URL test skips "", so a blank image reports the later "required" rule. */
  lemma ImageEntry(v: GameValues, isUrl: string -> bool)
    ensures var errors := Validate(SCHEMA, v, isUrl);
      && (Image in errors <==> !ImageAccepted(v.image, isUrl))
      && (v.image == "" ==> errors[Image] == IMAGE_REQUIRED)
      && (v.image != "" && !isUrl(v.image) ==> errors[Image] == IMAGE_INVALID)
  {
    var rules := RulesFor(SCHEMA, Image);
    assert rules == [rules[0]] + ([rules[1]] + []);
    FirstErrorCons(rules[1], [], v.image, isUrl);
    FirstErrorCons(rules[0], [rules[1]] + [], v.image, isUrl);
    assert FieldError(SCHEMA, v, Image, isUrl) == FirstError(rules, v.image, isUrl);
  }

  /**
   * The errors Formik holds for the form values `v`: exactly the fields that are not accepted,
   * each with the message of the first rule it breaks.
   */
  function Errors(v: GameValues, isUrl: string -> bool): (errors: map<Field, string>)
    ensures Title in errors <==> !TitleAccepted(v.title)
    ensures Rating in errors <==> !RatingAccepted(v.rating)
    ensures Console in errors <==> !ConsoleAccepted(v.console)
    ensures Genre in errors <==> !GenreAccepted(v.genre)
    ensures Image in errors <==> !ImageAccepted(v.image, isUrl)
    ensures v.title == "" ==> errors[Title] == TITLE_REQUIRED
    ensures Utf16Length(v.title) == 1 ==> errors[Title] == TITLE_TOO_SHORT
    ensures Utf16Length(v.title) > 60 ==> errors[Title] == TITLE_TOO_LONG
    ensures v.rating == "" ==> errors[Rating] == RATING_REQUIRED
    ensures v.rating != "" && !RatingAccepted(v.rating) ==> errors[Rating] == RATING_INVALID
    ensures v.console == "" ==> errors[Console] == CONSOLE_REQUIRED
    ensures v.console != "" && !ConsoleAccepted(v.console) ==> errors[Console] == CONSOLE_INVALID
    ensures v.genre == "" ==> errors[Genre] == GENRE_REQUIRED
    ensures Utf16Length(v.genre) == 1 ==> errors[Genre] == GENRE_TOO_SHORT
    ensures v.image == "" ==> errors[Image] == IMAGE_REQUIRED
    ensures v.image != "" && !isUrl(v.image) ==> errors[Image] == IMAGE_INVALID
  {
    TitleEntry(v, isUrl);
    RatingEntry(v, isUrl);
    ConsoleEntry(v, isUrl);
    GenreEntry(v, isUrl);
    ImageEntry(v, isUrl);
    Validate(SCHEMA, v, isUrl)
  }

  /** The form is valid (Formik's `isValid`) exactly when every field is accepted. */
  lemma ValidIffAccepted(v: GameValues, isUrl: string -> bool)
    ensures Errors(v, isUrl) == map[] <==> DraftAccepted(v, isUrl)
  {
    var errors := Errors(v, isUrl);
    if DraftAccepted(v, isUrl) {
      forall f | f in errors ensures false {
        match f
        case Title =>
        case Rating =>
        case Console =>
        case Genre =>
        case Image =>
      }
    }
  }

  /** Rating is checked on its lower-case form, so "M" and "m" get the same verdict. */
  lemma RatingIgnoresCase(v: GameValues, isUrl: string -> bool)
    ensures Errors(v, isUrl) == Errors(v.(rating := Lower(v.rating)), isUrl)
  {
    var w := v.(rating := Lower(v.rating));
    var rules := RulesFor(SCHEMA, Rating);
    assert CaseBlind(rules[0]) && CaseBlind(rules[1]) && |rules| == 2;
    FirstErrorIgnoresCase(rules, v.rating, isUrl);
    assert FieldError(SCHEMA, w, Rating, isUrl) == FirstError(rules, Lower(v.rating), isUrl);
    ValidateSameVerdictAt(SCHEMA, v, w, Rating, isUrl);
  }

  /** Console is lower-cased before the membership test, so "XBOX" and "xbox" get the same verdict. */
  lemma ConsoleIgnoresCase(v: GameValues, isUrl: string -> bool)
    ensures Errors(v, isUrl) == Errors(v.(console := Lower(v.console)), isUrl)
  {
    var w := v.(console := Lower(v.console));
    var rules := RulesFor(SCHEMA, Console);
    assert CaseBlind(rules[0]) && CaseBlind(rules[1]) && |rules| == 2;
    FirstErrorIgnoresCase(rules, v.console, isUrl);
    assert FieldError(SCHEMA, w, Console, isUrl) == FirstError(rules, Lower(v.console), isUrl);
    ValidateSameVerdictAt(SCHEMA, v, w, Console, isUrl);
  }

  /** "M" and "m" are both accepted ratings. */
  lemma RatingSpellings()
    ensures RatingAccepted("M") && RatingAccepted("m")
  {
    assert Lower("M") == "m";
  }

  /** One emoji is two UTF-16 units, so it passes `min(2)` as a title, and 31 of them fail `max(60)`. */
  lemma EmojiTitleLengths()
    ensures TitleAccepted("\U{1F600}")
    ensures !TitleAccepted(seq(31, _ => '\U{1F600}'))
  {
    var many: string := seq(31, _ => '\U{1F600}');
    assert Utf16Length("\U{1F600}") == 2;
    Utf16LengthAstral(many);
  }

  /** "XBOX" is an accepted console. */
  lemma XboxAccepted()
    ensures ConsoleAccepted("XBOX")
  {
    assert Lower("XBOX") == "xbox";
  }

  /** A blank form: every field has an error, and it is the field's "required" message. */
  lemma EmptyDraftErrors(isUrl: string -> bool)
    ensures var errors := Errors(EMPTY_VALUES, isUrl); forall f :: f in errors && errors[f] == RequiredMessage(f)
  {
    var errors := Errors(EMPTY_VALUES, isUrl);
    forall f
      ensures f in errors && errors[f] == RequiredMessage(f)
    {
      match f
      case Title =>
      case Rating =>
      case Console =>
      case Genre =>
      case Image =>
    }
  }

  /**
   * The submit button's `disabled={!isValid || isSubmitting || Object.keys(touched).length === 0}`,
   * negated: valid, not submitting, and some field touched. A valid form nobody has touched,
   * such as the prefill of an existing game, cannot be submitted.
   */
  function SubmitEnabled(v: GameValues, touched: set<Field>, isSubmitting: bool, isUrl: string -> bool): (enabled: bool)
    ensures enabled <==> DraftAccepted(v, isUrl) && !isSubmitting && touched != {}
  {
    ValidIffAccepted(v, isUrl);
    !(Errors(v, isUrl) != map[] || isSubmitting || |touched| == 0)
  }

  /**
   * `initialValues`: `currentGame?.f || ''` for each field. With no current game the form is
   * blank; while editing it shows the game's five fields.
   */
  function InitialValues(current: Option<Game>): (v: GameValues)
    ensures current.None? ==> v == EMPTY_VALUES
    ensures current.Some? ==> v == current.value.values
  {
    GameValues(OrEmpty(current, Title), OrEmpty(current, Rating), OrEmpty(current, Console),
               OrEmpty(current, Genre), OrEmpty(current, Image))
  }

  /** `currentGame?.f || ''` for one field (an empty string is already falsy, so it maps to itself). */
  function OrEmpty(current: Option<Game>, f: Field): string {
    match current
    case None => ""
    case Some(g) => if FieldValue(g.values, f) == "" then "" else FieldValue(g.values, f)
  }

  /**
   * The component's state: the three `useState` hooks and the parts of Formik's state the
   * handlers and the submit button read (`values`, `touched`, `isSubmitting`).
   */
  class GameManager {
    var games: seq<Game>
    var isEditing: bool
    var currentGame: Option<Game>
    var submitting: bool
    var values: GameValues
    var touched: set<Field>

    /** Editing always has a game to edit: `editGame` sets both, a successful submit clears both. */
    predicate Valid()
      reads this
    {
      isEditing <==> currentGame.Some?
    }

    constructor ()
      ensures Valid()
      ensures games == [] && !isEditing && currentGame == None && !submitting
      ensures values == EMPTY_VALUES && touched == {}
    {
      games, isEditing, currentGame, submitting := [], false, None, false;
      values, touched := InitialValues(None), {};
    }

    /** The mount effect: GET /games and `setGames(data)` on any parsed body, status unchecked. */
    method Load(outcome: Outcome<seq<Game>>) returns (req: Request)
      requires Valid()
      modifies this`games
      ensures Valid() && req == GetGames
      ensures games == if outcome.Parsed().Some? then outcome.Parsed().value else old(games)
    {
      req := GetGames;
      match outcome.Parsed() {
        case Some(data) => games := data;
        case None =>
      }
    }

    /** A keystroke in field `f` (Formik's handleChange): only that value changes. */
    method ChangeField(f: Field, s: string)
      modifies this`values
      ensures values == WithField(old(values), f, s)
    {
      values := WithField(values, f, s);
    }

    /** Leaving field `f` (Formik's handleBlur) marks it touched. */
    method BlurField(f: Field)
      modifies this`touched
      ensures touched == old(touched) + {f}
    {
      touched := touched + {f};
    }

    /**
     * `editGame(game)`. With `enableReinitialize`, Formik resets the form to the new
     * `initialValues` whenever they differ from the current ones, clearing `touched`.
     */
    method EditGame(game: Game)
      requires Valid()
      modifies this`isEditing, this`currentGame, this`values, this`touched
      ensures Valid() && isEditing && currentGame == Some(game)
      ensures InitialValues(old(currentGame)) != game.values ==> values == game.values && touched == {}
      ensures InitialValues(old(currentGame)) == game.values ==> values == old(values) && touched == old(touched)
    {
      var before := InitialValues(currentGame);
      isEditing, currentGame := true, Some(game);
      if InitialValues(currentGame) != before {
        values, touched := InitialValues(currentGame), {};
      }
    }

    /**
     * `handleSubmit`, from Formik setting `isSubmitting` to the `finally` clearing it. The
     * request is a PATCH of the current game's id while editing, a POST otherwise, both with
     * the raw form values as body. Only an ok status with a parsed body is reconciled: while
     * editing, every game with the returned id is replaced; otherwise the game is appended;
     * then the form resets and editing ends. Any failure leaves games, edit state and form as
     * they were.
     */
    method HandleSubmit(outcome: Outcome<Game>) returns (req: Request)
      requires Valid()
      modifies this
      ensures Valid() && !submitting
      ensures req == if old(isEditing) then PatchGame(old(currentGame).value.id, Game(None, old(values)))
                     else PostGame(Game(None, old(values)))
      ensures outcome.Ok? && outcome.body.Some? ==>
                && games == (if old(isEditing) then ReplaceById(old(games), outcome.body.value)
                             else old(games) + [outcome.body.value])
                && !isEditing && currentGame == None && values == EMPTY_VALUES && touched == {}
                && forall u :: !SubmitEnabled(values, touched, submitting, u)
      ensures !(outcome.Ok? && outcome.body.Some?) ==>
                && games == old(games) && isEditing == old(isEditing) && currentGame == old(currentGame)
                && values == old(values) && touched == old(touched)
    {
      submitting := true;
      var body := Game(None, values);
      req := if isEditing then PatchGame(currentGame.value.id, body) else PostGame(body);
      if outcome.Ok? && outcome.body.Some? {
        var saved := outcome.body.value;
        games := if isEditing then ReplaceById(games, saved) else games + [saved];
        values, touched := InitialValues(None), {};
        isEditing, currentGame := false, None;
      }
      submitting := false;
    }

    /**
     * `deleteGame(id)`: DELETE /games/${id}, then filter on any response, ok or not; only a
     * rejected fetch keeps the game.
     */
    method DeleteGame<T>(id: Option<int>, outcome: Outcome<T>) returns (req: Request)
      requires Valid()
      modifies this`games
      ensures Valid() && req == Request.DeleteGame(id)
      ensures games == if outcome.Resolved() then RemoveById(old(games), id) else old(games)
    {
      req := Request.DeleteGame(id);
      if outcome.Resolved() {
        games := RemoveById(games, id);
      }
    }

    /** The error line under field `f` (<ErrorMessage>): shown when the field is touched and has an error. */
    function ShownError(f: Field, isUrl: string -> bool): (shown: Option<string>)
      reads this
      ensures shown.Some? <==> f in touched && f in Errors(values, isUrl)
      ensures shown.Some? ==> shown.value == Errors(values, isUrl)[f]
    {
      VisibleError(Errors(values, isUrl), touched, f)
    }

    /** The submit button's enabled state for the current form. */
    function CanSubmit(isUrl: string -> bool): (enabled: bool)
      reads this
      ensures enabled <==> touched != {} && !submitting && Errors(values, isUrl) == map[]
    {
      SubmitEnabled(values, touched, submitting, isUrl)
    }
  }
}

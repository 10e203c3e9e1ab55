/**
 * The records the client components keep in state: the five editable fields of a game
 * (the Formik values of the game forms), a game as the server returns it, and the four
 * string fields of the new-listing form.
 */
module Catalog {
  import opened Wrappers

  /** The five fields of a game form, in the order the forms render them. */
  datatype Field = Title | Rating | Console | Genre | Image

  const ALL_FIELDS: set<Field> := {Title, Rating, Console, Genre, Image}

  lemma AllFieldsComplete(f: Field)
    ensures f in ALL_FIELDS && |ALL_FIELDS| == 5
  {
  }

  /** The form values of a game: every field is a string, "" when blank. */
  datatype GameValues = GameValues(title: string, rating: string, console: string, genre: string, image: string)

  const EMPTY_VALUES: GameValues := GameValues("", "", "", "", "")

  /**
   * A game object as it sits in the `games` array. `id` is None when the JSON object has no
   * `id` key (a body posted without one, or an error object such as {"error": ...} that a
   * handler appended without looking at the status); two absent ids compare equal, as
   * `undefined === undefined` does.
   */
  datatype Game = Game(id: Option<int>, values: GameValues)

  function FieldValue(v: GameValues, f: Field): string {
    match f
    case Title => v.title
    case Rating => v.rating
    case Console => v.console
    case Genre => v.genre
    case Image => v.image
  }

  /** `{ ...values, [f]: s }`: one field replaced, the other four kept. */
  function WithField(v: GameValues, f: Field, s: string): (r: GameValues)
    ensures FieldValue(r, f) == s
    ensures forall g :: g != f ==> FieldValue(r, g) == FieldValue(v, g)
  {
    match f
    case Title => v.(title := s)
    case Rating => v.(rating := s)
    case Console => v.(console := s)
    case Genre => v.(genre := s)
    case Image => v.(image := s)
  }

  /** The four inputs of the new-listing form, named after their `name` attributes. */
  datatype ListingField = StoreId | VideoGameId | Price | Stock

  /** `formData` of the new-listing form: `store_id`, `video_game_id`, `price`, `stock`. */
  datatype ListingData = ListingData(storeId: string, videoGameId: string, price: string, stock: string)

  const EMPTY_LISTING: ListingData := ListingData("", "", "", "")

  function ListingValue(d: ListingData, f: ListingField): string {
    match f
    case StoreId => d.storeId
    case VideoGameId => d.videoGameId
    case Price => d.price
    case Stock => d.stock
  }

  /** `{ ...formData, [name]: value }`. */
  function WithListingField(d: ListingData, f: ListingField, s: string): (r: ListingData)
    ensures ListingValue(r, f) == s
    ensures forall g :: g != f ==> ListingValue(r, g) == ListingValue(d, g)
  {
    match f
    case StoreId => d.(storeId := s)
    case VideoGameId => d.(videoGameId := s)
    case Price => d.(price := s)
    case Stock => d.(stock := s)
  }

  /** Two single-field updates of different fields commute: the order of keystrokes in two inputs does not matter. */
  lemma WithListingFieldCommutes(d: ListingData, f: ListingField, a: string, g: ListingField, b: string)
    requires f != g
    ensures WithListingField(WithListingField(d, f, a), g, b) == WithListingField(WithListingField(d, g, b), f, a)
  {
  }

  /** Writing back the value a field already holds changes nothing. */
  lemma WithListingFieldSame(d: ListingData, f: ListingField)
    ensures WithListingField(d, f, ListingValue(d, f)) == d
  {
  }
}

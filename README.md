# GameNest client core, modelled in Dafny

GameNest is a small catalogue of video games, stores and listings: a Flask server and a React
client. This project models the client-side game catalogue logic in four React components:

- **GameManager** validates a game form with a Yup schema. Each field has its own rules:
  title 2 to 60 UTF-16 units, rating E/T/M in any case, console lower-cased and one of
  four names, genre at least 2 UTF-16 units, image required and a URL. On submit it POSTs a new
  game or PATCHes the one being edited. Then it folds the server's answer into its `games`
  array: append on create, replace by id on update, filter by id on delete. It also clears
  the edit state. The submit button is enabled only for a valid, touched, idle form.
- **GamesList** holds its own `games` array and the same three handlers. It never looks at
  the response status.
- **GameForm** is the form that GamesList renders. It uses a weaker schema where every field
  is required. It hands its values to `addGame` or `updateGame` and clears itself at once.
  When the parent starts editing a game, the form fills itself with that game's fields.
- **NewListingForm** is a four-field controlled form that POSTs its data. It resets on any
  parsed response.

Module layout: `Wrappers` (Option), `Catalog` (the records), `Http` (request values and
fetch outcomes), `Validation` (Yup rule chains, where the first failing rule of a field wins),
`Reconcile` (the `map`/`filter` by id) and one module per component. Each stateful component
is a class whose fields are its `useState` hooks and the parts of Formik state the code reads.

Every `fetch` becomes two things. The handler returns a `Request` value. The handler also takes
an `Outcome` argument: `Ok(body)` or `HttpError(body)` for a response with or without
`response.ok`, or `NetworkError` for a rejected fetch. `body` is `None` when `response.json()`
would reject. A game's `id` is an `Option<int>`, because a JS object may lack `id`. One case is
an error body that GamesList appends without checking the status. Two absent ids compare
equal, just as `undefined === undefined` is true.

"Is a URL" is Yup's own pattern and is not modelled. It is a parameter `isUrl` of every
validation function. Lower-casing is ASCII only.

Notes on status handling and error display:
- GamesList's handlers and both `deleteGame`s reconcile on a non-ok status. Only
  GameManager's `handleSubmit` treats a non-ok status as a failure.
- An error shows only when its field is touched (`touched.f && errors.f`). There is no
  separate "submitted once" condition.

Yup's `min` and `max` compare JavaScript's `.length`, which counts UTF-16 code units. So the
model measures title and genre in those units: a character outside the Basic Multilingual
Plane, such as an emoji, counts twice.

Observations, with no change to the model:
- The title rule accepts exactly 60 characters, although its message says "less than 60".
  The genre rule accepts 2 characters, although its message says "more than 2".
- NewListingForm sends `video_game_id`, but the server's column is `game_id`
  (server/models.py:68). It also posts to `/api/listings`, but the server registers
  `/listings`.
- The server has no DELETE handler for `/games/<id>`. GameManager and GamesList still remove
  the game locally, because they do not check the status.
- Formik passes the raw values to `onSubmit`, not Yup's cast values. So "XBOX" passes
  validation and is sent as "XBOX".

## Model

| member | source | states |
|---|---|---|
| `Catalog.WithField` | client/src/components/GameForm.js:51-58 | a change to one input sets that field to the new value and keeps the other four |
| `Catalog.WithListingField` | client/src/components/NewListingForm.js:13-16 | `{ ...formData, [name]: value }` sets exactly the named field and keeps the other three |
| `Catalog.WithListingFieldCommutes` | client/src/components/NewListingForm.js:13-16 | edits to two different inputs give the same data in either order |
| `Catalog.WithListingFieldSame` | client/src/components/NewListingForm.js:13-16 | writing back a field's current value changes nothing |
| `Validation.Utf16Length` | client/src/components/GameManager.js:21-22 | `.length` as `min`/`max` read it: between the number of characters and twice that |
| `Validation.Utf16LengthAppend` | client/src/components/GameManager.js:21-22 | `.length` adds up over concatenation |
| `Validation.Utf16LengthBmp` | client/src/components/GameManager.js:21-22 | on text inside the Basic Multilingual Plane, `.length` is the number of characters |
| `Validation.Utf16LengthAstral` | client/src/components/GameManager.js:21-22 | each character outside the Basic Multilingual Plane counts two units |
| `Validation.Lower` | client/src/components/GameManager.js:29 | `toLowerCase` keeps the length and maps each character, A-Z to a-z |
| `Validation.LowerIdempotent` | client/src/components/GameManager.js:34 | lower-casing an already lower-cased value changes nothing |
| `Validation.FirstFailure` | client/src/components/GameManager.js:18-44 | index of the first rule in a field's chain that fails: every earlier rule passes and the rule at that index fails |
| `Validation.FirstError` | client/src/components/GameManager.js:18-44 | a field has no error iff every rule of its chain passes; otherwise its message is that of a failing rule |
| `Validation.FirstErrorIsEarliest` | client/src/components/GameManager.js:19-22 | when several rules fail, the reported message is the earliest failing rule's (Formik keeps the first error of a path) |
| `Validation.FirstErrorIgnoresCase` | client/src/components/GameManager.js:24-35 | a chain of "required" and lower-cased membership rules gives a value and its lower-case form the same verdict |
| `Validation.Validate` | client/src/components/GameForm.js:7-13 | the error map has an entry for a field exactly when its chain fails, and the entry is that chain's first failing message (at most one error per field) |
| `Validation.VisibleError` | client/src/components/GameForm.js:59-61 | a field's error is displayed iff the field is touched and has an error, and it is that error |
| `Reconcile.ReplaceById` | client/src/components/GameManager.js:65-69 | the update map keeps length and order, puts the returned game at every position whose id equals its id, and keeps every other entry |
| `Reconcile.RemoveById` | client/src/components/GameManager.js:87 | the delete filter keeps exactly the entries whose id differs from the deleted id |
| `Reconcile.RemoveByIdAppend` | client/src/components/GamesList.js:53 | filtering distributes over concatenation, so the surviving entries keep their relative order |
| `Reconcile.RemoveByIdLength` | client/src/components/GamesList.js:53 | a delete shortens the list by exactly the number of entries with that id |
| `Reconcile.RemoveByIdAbsent` | client/src/components/GamesList.js:53 | deleting an id no entry has leaves the list unchanged |
| `Reconcile.RemoveByIdIdempotent` | client/src/components/GameManager.js:87 | deleting the same id twice is the same as deleting it once |
| `Reconcile.ReplaceByIdAbsent` | client/src/components/GamesList.js:42 | an update whose id matches no entry leaves the list unchanged |
| `Reconcile.ReplaceByIdIdempotent` | client/src/components/GameManager.js:67-69 | applying the same update twice is the same as applying it once |
| `Reconcile.ReplaceByIdCountOther` | client/src/components/GamesList.js:42 | an update does not change how many entries carry any other id |
| `Reconcile.AppendNewIdOnce` | client/src/components/GameManager.js:70 | after a created game with a new id is appended, exactly one entry has that id |
| `GameManager.TitleEntry` | client/src/components/GameManager.js:19-22 | title fails iff its UTF-16 length is outside 2..60; "" reports "Title is required", length 1 reports the minimum message, over 60 the maximum message |
| `GameManager.RatingEntry` | client/src/components/GameManager.js:24-30 | rating fails iff its lower-case form is not e, t or m; "" reports "Rating is required", any other failure the E/T/M message |
| `GameManager.ConsoleEntry` | client/src/components/GameManager.js:32-35 | console fails iff its lower-case form is not one of the four console names; "" reports "Console is required", any other failure the console-list message |
| `GameManager.GenreEntry` | client/src/components/GameManager.js:37-39 | genre fails iff its UTF-16 length is below 2; "" reports "Genre is required", length 1 the minimum message |
| `GameManager.ImageEntry` | client/src/components/GameManager.js:41-43 | image fails iff it is empty or not a URL; "" reports "Image URL is required" (the URL test skips ""), a non-URL "Invalid URL" |
| `GameManager.Errors` | client/src/components/GameManager.js:18-44 | the validator: every field is in the error map iff it is not accepted, with the message of the first rule it breaks |
| `GameManager.ValidIffAccepted` | client/src/components/GameManager.js:18-44 | the form is valid (empty error map) iff all five fields are accepted |
| `GameManager.RatingIgnoresCase` | client/src/components/GameManager.js:24-30 | a rating and its lower-case form give the same error map |
| `GameManager.ConsoleIgnoresCase` | client/src/components/GameManager.js:32-35 | a console and its lower-case form give the same error map |
| `GameManager.EmojiTitleLengths` | client/src/components/GameManager.js:21-22 | a one-emoji title passes the minimum (two units), and a title of 31 emoji fails the maximum (62 units) |
| `GameManager.RatingSpellings` | client/src/components/GameManager.js:29 | "M" and "m" are both accepted ratings |
| `GameManager.XboxAccepted` | client/src/components/GameManager.js:34-35 | "XBOX" is an accepted console |
| `GameManager.EmptyDraftErrors` | client/src/components/GameManager.js:18-44 | a blank form has an error on every field, and each is that field's "required" message |
| `GameManager.SubmitEnabled` | client/src/components/GameManager.js:128 | the button is enabled iff all fields are accepted, nothing is submitting and some field is touched; a pristine valid form cannot be submitted |
| `GameManager.InitialValues` | client/src/components/GameManager.js:95-101 | the initial values are blank with no current game and the current game's five fields while editing |
| `GameManager.GameManager.constructor` | client/src/components/GameManager.js:6-8 | no games, not editing, no current game, an idle blank untouched form |
| `GameManager.GameManager.Load` | client/src/components/GameManager.js:10-15 | GET /games; any parsed body replaces `games`; a failed load keeps it |
| `GameManager.GameManager.ChangeField` | client/src/components/GameManager.js:109-125 | typing in a field changes only that field's value |
| `GameManager.GameManager.BlurField` | client/src/components/GameManager.js:109-125 | leaving a field adds it to the touched set |
| `GameManager.GameManager.EditGame` | client/src/components/GameManager.js:80-83 | editing starts with the given game; the form is reinitialised to its fields when the initial values change |
| `GameManager.GameManager.HandleSubmit` | client/src/components/GameManager.js:49-79 | PATCH of the current id while editing, POST otherwise, with the form values as body; an ok parsed game is merged (replace while editing, append otherwise), then editing ends and the form clears, so the button is disabled again whatever `isUrl` is; any failure changes nothing else; `submitting` ends false |
| `GameManager.GameManager.DeleteGame` | client/src/components/GameManager.js:85-89 | DELETE /games/id; any response, whatever its status, filters the id out; only a rejected fetch keeps the list |
| `GameManager.GameManager.ShownError` | client/src/components/GameManager.js:110 | a field's message is shown iff it is touched and the current values give it an error, and it is that error |
| `GameManager.GameManager.CanSubmit` | client/src/components/GameManager.js:128 | the button is enabled iff some field is touched, no submit is in progress and there are no errors |
| `GameForm.FieldEntry` | client/src/components/GameForm.js:7-13 | a field errs iff it is blank, or it is the image and not a URL; a blank field reports its "required" message; a non-URL image "Invalid URL" |
| `GameForm.Errors` | client/src/components/GameForm.js:7-13 | the required-fields validator: errors are exactly the blank fields plus a non-URL image, with the stated messages |
| `GameForm.EmptyFormErrors` | client/src/components/GameForm.js:7-13 | a blank form has exactly five errors, one "required" message per field |
| `GameForm.ShownRequiredIff` | client/src/components/GameForm.js:59-61 | under a non-image field, the "required" message is displayed iff the field is touched and blank |
| `GameForm.GameForm.constructor` | client/src/components/GameForm.js:17-23 | the form starts with five empty strings and nothing touched |
| `GameForm.GameForm.ChangeField` | client/src/components/GameForm.js:56 | typing in a field changes only that field's value |
| `GameForm.GameForm.BlurField` | client/src/components/GameForm.js:57 | leaving a field adds it to the touched set |
| `GameForm.GameForm.Prefill` | client/src/components/GameForm.js:37-47 | while editing a current game, the values become exactly its five fields; otherwise they are kept |
| `GameForm.GameForm.OnSubmit` | client/src/components/GameForm.js:25-33 | editing with a current game dispatches `updateGame` with the values and that game's id; otherwise `addGame` with the values and no id; the form then resets to blank |
| `GameForm.GameForm.ShownError` | client/src/components/GameForm.js:59-109 | a field's error line shows iff it is touched and blank, or it is the image and not a URL; it shows the current error for that field |
| `GamesList.GameList.constructor` | client/src/components/GamesList.js:5-7 | no games, not editing, no current game |
| `GamesList.GameList.Load` | client/src/components/GamesList.js:10-15 | GET /games; any parsed body replaces `games`; a failed load keeps it |
| `GamesList.GameList.AddGame` | client/src/components/GamesList.js:18-29 | POST of the game; any parsed body, whatever the status, is appended; otherwise nothing changes |
| `GamesList.GameList.UpdateGame` | client/src/components/GamesList.js:32-47 | PATCH of the game's id; any parsed body replaces the entries with its id, then editing ends; otherwise games and edit state are unchanged |
| `GamesList.GameList.DeleteGame` | client/src/components/GamesList.js:50-56 | DELETE of the id; any response filters the id out; a rejected fetch keeps the list |
| `GamesList.GameList.EditGame` | client/src/components/GamesList.js:59-62 | editing starts with the given game; `games` is untouched |
| `GamesList.SubmitForm` | client/src/components/GamesList.js:67-72 | a GameForm submit always resets the form; it posts a new game or patches the current one, and the list reconciles the response; an add, or an unparseable response, leaves the edit state as it was |
| `NewListingForm.NewListingForm.constructor` | client/src/components/NewListingForm.js:6-11 | `formData` starts as four empty strings |
| `NewListingForm.NewListingForm.HandleChange` | client/src/components/NewListingForm.js:13-16 | only the named field takes the new value |
| `NewListingForm.NewListingForm.HandleSubmit` | client/src/components/NewListingForm.js:18-38 | called only with all four inputs filled (the `required` attribute, lines 44-53); the POST body is the current `formData`; any parsed response resets it to blank, whatever the status; a rejected fetch or unparseable body keeps it |

## Left out

- server/app.py, server/models.py and server/seed.py are not part of this model. They are Flask and SQLAlchemy routes and schema, the Store/Listing resources are empty stubs, and the seed data is random.
- App.js, App2.js, routes.js, NavBar.js, ListingPage.js, Games.js, Stores.js and Listings.js are not part of this model. They only route, fetch and render.
- Yup's URL pattern is library code. It is the `isUrl` parameter.
- Yup's other internals are library code too: casting and transforms, apart from the lower-casing the schema asks for.
- Formik runs `onSubmit` only after validation passes, and it marks every field touched first. That gate is library code. `HandleSubmit` and `OnSubmit` are modelled as what runs once Formik calls them.
- The model's error map always matches the current values. Formik recomputes errors only on change, blur and submit.
- Lower-casing is ASCII only. JavaScript's `toLowerCase` also maps non-ASCII letters.
- Handlers run one at a time, each with its outcome given. A request still in flight when another event happens is not modelled. Neither is a request that never settles and leaves `submitting` true. GamesList's handlers capture `games`, and GameManager's capture `isEditing`; this matters only for overlapping requests.
- Response bodies are modelled as games with optional ids, or a list of games for the load. Extra keys such as `listings` are dropped. A load body that is not an array cannot be represented. A field value that is not a string cannot be represented.
- `alert` and `console.error` are output only and are left out.
- `NewListingForm.NewListingForm.HandleChange`: takes one of the four input names. The JavaScript would add any other `name` as a new key, but only the four inputs call it.
- Sorting and filtering of the list, and Store or Listing field rules, are not modelled. The client code shown has no such code to model.

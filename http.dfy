/**
 * The remote side, seen from the client: each `fetch` becomes a request value the component
 * issues plus an outcome argument that says how the promise chain settled.
 */
module Http {
  import opened Wrappers
  import opened Catalog

  /**
   * How a `fetch` settled. `Ok` is a response with `response.ok`, `HttpError` one without;
   * `body` is the result of `response.json()`: None when the payload does not parse, which
   * rejects the promise. `NetworkError` is a rejected `fetch`.
   */
  datatype Outcome<T> =
    | Ok(body: Option<T>)
    | HttpError(body: Option<T>)
    | NetworkError
  {
    /** The value `fetch(...).then(r => r.json())` delivers to the next `.then`, whatever the status. */
    function Parsed(): Option<T> {
      if NetworkError? then None else body
    }

    /** Whether `fetch(...)` resolved at all (any status), so that a `.then` that ignores the body runs. */
    predicate Resolved() {
      !NetworkError?
    }
  }

  /** The requests the components send; paths and bodies as the components build them. */
  datatype Request =
    | GetGames                                 // GET /games
    | PostGame(game: Game)                     // POST /games, body JSON.stringify(game)
    | PatchGame(target: Option<int>, game: Game) // PATCH /games/${target}
    | DeleteGame(target: Option<int>)          // DELETE /games/${target}
    | PostListing(listing: ListingData)        // POST /api/listings, body JSON.stringify(formData)
}

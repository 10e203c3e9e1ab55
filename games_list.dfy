/**
 * GameList: the list of games with its own fetch handlers, rendering a GameForm that calls
 * back into `addGame` or `updateGame`. Every handler reads `response.json()` without looking
 * at the status.
 */
module GamesList {
  import opened Wrappers
  import opened Catalog
  import opened Http
  import opened Reconcile
  import opened GameForm

  class GameList {
    var games: seq<Game>
    var isEditing: bool
    var currentGame: Option<Game>

    /** Editing always has a game to edit: `editGame` sets both, a completed update clears both. */
    predicate Valid()
      reads this
    {
      isEditing <==> currentGame.Some?
    }

    constructor ()
      ensures Valid() && games == [] && !isEditing && currentGame == None
    {
      games, isEditing, currentGame := [], false, None;
    }

    /** The mount effect: GET /games, then `setGames(data)` with whatever parsed. */
    method Load(outcome: Outcome<seq<Game>>) returns (req: Request)
      requires Valid()
      modifies this`games
      ensures Valid() && req == GetGames
      ensures games == if outcome.Parsed().Some? then outcome.Parsed().value else old(games)
    {
      req := GetGames;
      if outcome.Parsed().Some? {
        games := outcome.Parsed().value;
      }
    }

    /**
     * `addGame(newGame)`: POST /games, then append whatever JSON came back, error bodies
     * included; a rejected fetch or an unparseable body changes nothing.
     */
    method AddGame(newGame: Game, outcome: Outcome<Game>) returns (req: Request)
      requires Valid()
      modifies this`games
      ensures Valid() && req == PostGame(newGame)
      ensures games == if outcome.Parsed().Some? then old(games) + [outcome.Parsed().value] else old(games)
    {
      req := PostGame(newGame);
      match outcome.Parsed() {
        case Some(addedGame) => games := games + [addedGame];
        case None =>
      }
    }

    /**
     * `updateGame(updatedGame)`: PATCH /games/${updatedGame.id}, then replace every game
     * whose id equals the returned object's id and leave editing; a rejected fetch or an
     * unparseable body changes nothing.
     */
    method UpdateGame(updatedGame: Game, outcome: Outcome<Game>) returns (req: Request)
      requires Valid()
      modifies this`games, this`isEditing, this`currentGame
      ensures Valid() && req == PatchGame(updatedGame.id, updatedGame)
      ensures outcome.Parsed().Some? ==>
                games == ReplaceById(old(games), outcome.Parsed().value) && !isEditing && currentGame == None
      ensures outcome.Parsed().None? ==>
                games == old(games) && isEditing == old(isEditing) && currentGame == old(currentGame)
    {
      req := PatchGame(updatedGame.id, updatedGame);
      match outcome.Parsed() {
        case Some(editedGame) =>
          games := ReplaceById(games, editedGame);
          isEditing, currentGame := false, None;
        case None =>
      }
    }

    /** `deleteGame(id)`: DELETE /games/${id}, then filter on any response; a rejected fetch keeps the game. */
    method DeleteGame<T>(id: Option<int>, outcome: Outcome<T>) returns (req: Request)
      requires Valid()
      modifies this`games
      ensures Valid() && req == Request.DeleteGame(id)
      ensures games == if outcome.Resolved() then RemoveById(old(games), id) else old(games)
    {
      req := Request.DeleteGame(id);
      if outcome.Resolved() {
        games := RemoveById(games, id);
      }
    }

    /** `editGame(game)`: enter editing with `game`; the list is untouched. */
    method EditGame(game: Game)
      modifies this`isEditing, this`currentGame
      ensures Valid() && isEditing && currentGame == Some(game)
    {
      isEditing, currentGame := true, Some(game);
    }
  }

  /**
   * A submit of the rendered GameForm: the form dispatches to `addGame` or `updateGame` with
   * the list's `isEditing` and `currentGame` as props and clears itself whatever the server
   * answers; the list then reconciles the response.
   */
  method SubmitForm(form: GameForm, list: GameList, outcome: Outcome<Game>) returns (req: Request)
    requires list.Valid()
    modifies form, list
    ensures list.Valid()
    ensures form.values == EMPTY_VALUES && form.touched == {}
    ensures old(list.isEditing) ==>
              && req == PatchGame(old(list.currentGame).value.id, Game(old(list.currentGame).value.id, old(form.values)))
              && (outcome.Parsed().Some? ==>
                    list.games == ReplaceById(old(list.games), outcome.Parsed().value)
                    && !list.isEditing && list.currentGame == None)
    ensures !old(list.isEditing) ==>
              && req == PostGame(Game(None, old(form.values)))
              && list.games == (if outcome.Parsed().Some? then old(list.games) + [outcome.Parsed().value] else old(list.games))
    ensures !old(list.isEditing) ==> list.isEditing == old(list.isEditing) && list.currentGame == old(list.currentGame)
    ensures outcome.Parsed().None? ==>
              list.games == old(list.games) && list.isEditing == old(list.isEditing) && list.currentGame == old(list.currentGame)
  {
    var d := form.OnSubmit(list.isEditing, list.currentGame);
    match d {
      case AddGame(g) => req := list.AddGame(g, outcome);
      case UpdateGame(g) => req := list.UpdateGame(g, outcome);
    }
  }
}

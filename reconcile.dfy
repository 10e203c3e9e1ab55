/**
 * The two array operations the handlers use to fold a server response into `games`:
 * `games.map(game => game.id === g.id ? g : game)` after an update and
 * `games.filter(game => game.id !== id)` after a delete.
 */
module Reconcile {
  import opened Wrappers
  import opened Catalog

  /** `games.map(game => game.id === g.id ? g : game)`. */
  function ReplaceById(games: seq<Game>, g: Game): (r: seq<Game>)
    ensures |r| == |games|
    ensures forall i :: 0 <= i < |games| ==> r[i] == if games[i].id == g.id then g else games[i]
  {
    if games == [] then [] else [if games[0].id == g.id then g else games[0]] + ReplaceById(games[1..], g)
  }

  /** `games.filter(game => game.id !== id)`. */
  function RemoveById(games: seq<Game>, id: Option<int>): (r: seq<Game>)
    ensures |r| <= |games|
    ensures forall x :: x in r <==> x in games && x.id != id
  {
    if games == [] then []
    else
      assert forall x :: x in games <==> x == games[0] || x in games[1..];
      (if games[0].id != id then [games[0]] else []) + RemoveById(games[1..], id)
  }

  /** Number of entries whose id is `id`. */
  function CountId(games: seq<Game>, id: Option<int>): nat {
    if games == [] then 0 else (if games[0].id == id then 1 else 0) + CountId(games[1..], id)
  }

  lemma {:induction false} CountIdAppend(a: seq<Game>, b: seq<Game>, id: Option<int>)
    ensures CountId(a + b, id) == CountId(a, id) + CountId(b, id)
  {
    if a != [] {
      assert (a + b)[1..] == a[1..] + b;
      CountIdAppend(a[1..], b, id);
    } else {
      assert a + b == b;
    }
  }

  /** No entry has the id exactly when the count is zero. */
  lemma {:induction false} CountIdZero(games: seq<Game>, id: Option<int>)
    ensures CountId(games, id) == 0 <==> forall x :: x in games ==> x.id != id
  {
    if games != [] {
      CountIdZero(games[1..], id);
      assert forall x :: x in games <==> x == games[0] || x in games[1..];
    }
  }

  /**
   * Filtering commutes with concatenation: the kept entries of a prefix come before the kept
   * entries of the rest, so the survivors keep their relative order.
   */
  lemma {:induction false} RemoveByIdAppend(a: seq<Game>, b: seq<Game>, id: Option<int>)
    ensures RemoveById(a + b, id) == RemoveById(a, id) + RemoveById(b, id)
  {
    if a == [] {
      assert a + b == b;
    } else {
      assert (a + b)[1..] == a[1..] + b;
      RemoveByIdAppend(a[1..], b, id);
    }
  }

  /** A delete removes exactly the entries carrying the id, no more. */
  lemma {:induction false} RemoveByIdLength(games: seq<Game>, id: Option<int>)
    ensures |RemoveById(games, id)| == |games| - CountId(games, id)
  {
    if games != [] {
      RemoveByIdLength(games[1..], id);
    }
  }

  /** Deleting an id that no entry carries leaves the array as it was. */
  lemma {:induction false} RemoveByIdAbsent(games: seq<Game>, id: Option<int>)
    requires forall x :: x in games ==> x.id != id
    ensures RemoveById(games, id) == games
  {
    if games != [] {
      assert games[0] in games;
      RemoveByIdAbsent(games[1..], id);
      assert games == [games[0]] + games[1..];
    }
  }

  /** Filtering twice by the same id is filtering once. */
  lemma RemoveByIdIdempotent(games: seq<Game>, id: Option<int>)
    ensures RemoveById(RemoveById(games, id), id) == RemoveById(games, id)
  {
    RemoveByIdAbsent(RemoveById(games, id), id);
  }

  /** Replacing an id that no entry carries leaves the array as it was. */
  lemma ReplaceByIdAbsent(games: seq<Game>, g: Game)
    requires forall x :: x in games ==> x.id != g.id
    ensures ReplaceById(games, g) == games
  {
    assert forall i :: 0 <= i < |games| ==> games[i] in games;
  }

  /** Applying the same update twice is applying it once. */
  lemma ReplaceByIdIdempotent(games: seq<Game>, g: Game)
    ensures ReplaceById(ReplaceById(games, g), g) == ReplaceById(games, g)
  {
  }

  /** An update keeps the number of entries carrying each id other than the updated one. */
  lemma {:induction false} ReplaceByIdCountOther(games: seq<Game>, g: Game, id: Option<int>)
    requires id != g.id
    ensures CountId(ReplaceById(games, g), id) == CountId(games, id)
  {
    if games != [] {
      var r := ReplaceById(games, g);
      assert r[1..] == ReplaceById(games[1..], g);
      ReplaceByIdCountOther(games[1..], g, id);
    }
  }

  /** Appending a created game whose id no entry has leaves exactly one entry with that id. */
  lemma AppendNewIdOnce(games: seq<Game>, g: Game)
    requires forall x :: x in games ==> x.id != g.id
    ensures CountId(games + [g], g.id) == 1
  {
    CountIdAppend(games, [g], g.id);
    CountIdZero(games, g.id);
    assert [g][1..] == [];
  }
}

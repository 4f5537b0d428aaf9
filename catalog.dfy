/**
 * The catalogue page of frontend/src/pages/GamesCatalog.tsx: the hard-coded
 * `gamesData` and the `filteredGames` memo, a case-insensitive title search
 * combined with a genre filter.
 */
module Catalog {
  import opened JsString
  import Seqs

  /** The `Genre` union; `All` is the filter's "no restriction" value. */
  datatype Genre = All | Action | Adventure | RPG | Indie | Strategy | Racing

  /** A catalogue entry (price and cover are display-only). */
  datatype Game = Game(id: string, title: string, genre: Genre)

  /** `gamesData`, in its declared order. */
  const GamesData: seq<Game> := [
    Game("1", "CyberStrike 2077", Action),
    Game("2", "Mystic Quest", RPG),
    Game("3", "Shadow Runner", Adventure),
    Game("4", "Indie Valley", Indie),
    Game("5", "Galactic Wars", Strategy),
    Game("6", "Kart Legends", Racing)
  ]

  /** `matchesSearch && matchesGenre` for one game. */
  function Matches(search: string, genreFilter: Genre, g: Game): (r: bool)
    ensures r <==>
      && (exists i :: OccursAt(ToLower(g.title), ToLower(search), i))
      && (genreFilter == All || g.genre == genreFilter)
  {
    Includes(ToLower(g.title), ToLower(search)) && (genreFilter == All || g.genre == genreFilter)
  }

  /** `filteredGames`: the games of `gamesData` whose lower-cased title
      contains the lower-cased search and whose genre passes the filter. */
  function FilteredGames(search: string, genreFilter: Genre): (r: seq<Game>)
    ensures forall g :: g in r <==>
      && g in GamesData
      && (exists i :: OccursAt(ToLower(g.title), ToLower(search), i))
      && (genreFilter == All || g.genre == genreFilter)
  {
    Seqs.FilterMembers(GamesData, g => Matches(search, genreFilter, g));
    Seqs.Filter(GamesData, g => Matches(search, genreFilter, g))
  }

  /** The result lists the games in catalogue order. */
  lemma FilteredIsSubsequence(search: string, genreFilter: Genre)
    ensures Seqs.Subsequence(FilteredGames(search, genreFilter), GamesData)
  {
    Seqs.FilterIsSubsequence(GamesData, g => Matches(search, genreFilter, g));
  }

  /** With an empty search and `All`, every game is shown, in order. */
  lemma EmptySearchShowsAll()
    ensures FilteredGames("", All) == GamesData
  {
    forall g | g in GamesData ensures Matches("", All, g) {
      assert OccursAt(ToLower(g.title), "", 0);
    }
    Seqs.FilterKeepsAll(GamesData, g => Matches("", All, g));
  }

  /** Searching for a text or for its lower-cased form shows the same
      games. */
  lemma SearchIsCaseInsensitive(search: string, genreFilter: Genre)
    ensures FilteredGames(search, genreFilter) == FilteredGames(ToLower(search), genreFilter)
  {
    ToLowerIdempotent(search);
    Seqs.FilterExtensional(GamesData,
      g => Matches(search, genreFilter, g),
      g => Matches(ToLower(search), genreFilter, g));
  }

  /** Whether the page shows "No games found.". */
  function NoGamesFound(search: string, genreFilter: Genre): (r: bool)
    ensures r <==> forall k :: 0 <= k < |GamesData| ==> !Matches(search, genreFilter, GamesData[k])
  {
    Seqs.FilterEmptyIff(GamesData, g => Matches(search, genreFilter, g));
    |FilteredGames(search, genreFilter)| == 0
  }
}

/** The genre endpoints of the data API (api/GenreData/…). */
module GenreData {
  import opened Models
  import opened Responses
  import opened Context
  import Schema
  import Queries
  import Lists

  class GenreDataController {
    const db: ApplicationDbContext

    constructor (db: ApplicationDbContext)
      ensures this.db == db
    {
      this.db := db;
    }

    /** GET ListGenres: every stored genre, once, as its DTO. */
    method ListGenres() returns (r: Response<seq<GenreDto>>)
      requires db.Valid()
      ensures r.Ok? && Queries.ListsGenres(r.body, db.genres, db.genres.Keys)
    {
      var ids, genres := Lists.ToList(db.genres, db.genres.Keys, db.nextGenreId);
      var dtos := Lists.Project(genres, GenreDtoOf);
      assert GenreIds(dtos) == ids;
      r := Ok(dtos);
    }

    /** GET FindGenre/{id}: 404 exactly when no genre has the id. */
    method FindGenre(id: int) returns (r: Response<GenreDto>)
      requires db.Valid()
      ensures r.NotFound? <==> id !in db.genres
      ensures r.Ok? || r.NotFound?
      ensures r.Ok? ==> r.body.genreId == id && r.body.genreName == db.genres[id].genreName
    {
      if id !in db.genres {
        return NotFound;
      }
      r := Ok(GenreDtoOf(db.genres[id]));
    }

    /** GET MoviesofGenre/{id}: the movies linked to the genre; an unknown genre id gives an
        empty list. */
    method MoviesofGenre(id: int) returns (r: Response<seq<MovieDto>>)
      requires db.Valid()
      ensures r.Ok? && Queries.ListsMovies(r.body, db.movies, Queries.MoviesOfGenre(db.Tables(), id))
      ensures id !in db.genres ==> r == Ok([])
    {
      var keys := Queries.MoviesOfGenre(db.Tables(), id);
      var ids, movies := Lists.ToList(db.movies, keys, db.nextMovieId);
      var dtos := Lists.Project(movies, MovieDtoOf);
      assert MovieIds(dtos) == ids;
      r := Ok(dtos);
      if id !in db.genres {
        Queries.UnknownGenreHasNoMovies(db.Tables(), id);
        Queries.ListsMoviesCount(dtos, db.movies, keys);
      }
    }

    /** POST UpdateGenre/{id}: 400 for an invalid model state, 500 when no body was posted,
        400 for an id that differs from the body's, 404 when the row is gone, otherwise the
        row is overwritten and 204 is sent. */
    method UpdateGenre(id: int, body: Body<Genre>, modelValid: bool) returns (r: Response<()>)
      requires db.Valid()
      modifies db
      ensures db.Valid()
      ensures !modelValid ==> r == BadRequest
      ensures modelValid && body.None? ==> r == ServerError
      ensures modelValid && body.Some? && id != body.value.genreId ==> r == BadRequest
      ensures modelValid && body.Some? && id == body.value.genreId ==>
                r == if id in old(db.genres) then NoContent else NotFound
      ensures r == NoContent ==> db.Tables() == Schema.UpdateGenre(old(db.Tables()), body.value)
      ensures r != NoContent ==> db.Tables() == old(db.Tables())
    {
      if !modelValid {
        return BadRequest;
      }
      if body.None? {
        return ServerError;
      }
      var genre := body.value;
      if id != genre.genreId {
        return BadRequest;
      }
      var saved := db.ModifyGenre(genre);
      if saved == RowMissing {
        // DbUpdateConcurrencyException; the row being gone, GenreExists is false
        assert !GenreExists(id);
        return NotFound;
      }
      r := NoContent;
    }

    /** POST AddGenre: 400 for an invalid model state, 500 when no body was posted (`Add`
        refuses null); otherwise the genre is stored and its new id is sent back. */
    method AddGenre(body: Body<Genre>, modelValid: bool) returns (r: Response<int>)
      requires db.Valid()
      modifies db
      ensures db.Valid()
      ensures !modelValid ==> r == BadRequest
      ensures modelValid && body.None? ==> r == ServerError
      ensures !r.Ok? ==> db.Tables() == old(db.Tables())
      ensures modelValid && body.Some? ==>
                && r == Ok(old(db.nextGenreId))
                && r.body !in old(db.genres) && r.body in db.genres
                && db.Tables() == Schema.InsertGenre(old(db.Tables()), body.value)
    {
      if !modelValid {
        return BadRequest;
      }
      if body.None? {
        return ServerError;
      }
      var id := db.AddGenre(body.value);
      r := Ok(id);
    }

    /** POST DeleteGenre/{id}: 404 for an unknown id; otherwise the genre and its GenreMovies
        rows go, and nothing else. */
    method DeleteGenre(id: int) returns (r: Response<()>)
      requires db.Valid()
      modifies db
      ensures db.Valid()
      ensures id !in old(db.genres) ==> r == NotFound && db.Tables() == old(db.Tables())
      ensures id in old(db.genres) ==> r == Ok(()) && db.Tables() == Schema.DeleteGenre(old(db.Tables()), id)
    {
      if id !in db.genres {
        return NotFound;
      }
      db.RemoveGenre(id);
      r := Ok(());
    }

    /** Whether some row has the id: `db.Genres.Count(e => e.GenreID == id) > 0`. */
    function GenreExists(id: int): (b: bool)
      requires db.Valid()
      reads db
      ensures b <==> id in db.genres
    {
      var matching := set k | k in db.genres && db.genres[k].genreId == id;
      // the primary key makes the matching rows exactly {id} or nothing
      assert matching == if id in db.genres then {id} else {} by {
        assert forall k :: k in matching <==> k in (if id in db.genres then {id} else {});
      }
      |matching| > 0
    }
  }
}

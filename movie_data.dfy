/** The movie endpoints of the data API (api/MovieData/…). */
module MovieData {
  import opened Models
  import opened Responses
  import opened Context
  import Schema
  import Queries
  import Lists

  class MovieDataController {
    const db: ApplicationDbContext

    constructor (db: ApplicationDbContext)
      ensures this.db == db
    {
      this.db := db;
    }

    /** GET ListMovies: every stored movie, once, as its DTO. */
    method ListMovies() returns (r: Response<seq<MovieDto>>)
      requires db.Valid()
      ensures r.Ok? && Queries.ListsMovies(r.body, db.movies, db.movies.Keys)
    {
      var ids, movies := Lists.ToList(db.movies, db.movies.Keys, db.nextMovieId);
      var dtos := Lists.Project(movies, MovieDtoOf);
      assert MovieIds(dtos) == ids;
      r := Ok(dtos);
    }

    /** GET FindMovie/{id}: 404 exactly when no movie has the id. */
    method FindMovie(id: int) returns (r: Response<MovieDto>)
      requires db.Valid()
      ensures r.NotFound? <==> id !in db.movies
      ensures r.Ok? || r.NotFound?
      ensures r.Ok? ==> && r.body.movieId == id
                        && r.body.title == db.movies[id].title
                        && r.body.yearReleased == db.movies[id].yearReleased
                        && r.body.review == db.movies[id].review
                        && r.body.directorId == db.movies[id].directorId
    {
      if id !in db.movies {
        return NotFound;
      }
      r := Ok(MovieDtoOf(db.movies[id]));
    }

    /** GET GetDirectorOfMovie/{id}: the director whose id is the movie's DirectorID. The
        action has no not-found branch: for an unknown movie the query finds no director and
        reading the null result throws, which the framework answers with 500. */
    method GetDirectorOfMovie(id: int) returns (r: Response<DirectorDto>)
      requires db.Valid()
      ensures id !in db.movies ==> r == ServerError
      ensures id in db.movies ==> r == Ok(DirectorDtoOf(db.directors[db.movies[id].directorId]))
    {
      var candidates := Queries.DirectorsOfMovie(db.Tables(), id);
      Queries.DirectorOfMovieIsItsDirector(db.Tables(), id);
      if candidates == {} {
        return ServerError;
      }
      // FirstOrDefault: the first row of the query
      var ids, directors := Lists.ToList(db.directors, candidates, db.nextDirectorId);
      assert db.movies[id].directorId in ids;
      r := Ok(DirectorDtoOf(directors[0]));
    }

    /** GET GetDirectors: every stored director, once, as its DTO. */
    method GetDirectors() returns (r: Response<seq<DirectorDto>>)
      requires db.Valid()
      ensures r.Ok? && Queries.ListsDirectors(r.body, db.directors, db.directors.Keys)
    {
      var ids, directors := Lists.ToList(db.directors, db.directors.Keys, db.nextDirectorId);
      var dtos := Lists.Project(directors, DirectorDtoOf);
      assert DirectorIds(dtos) == ids;
      r := Ok(dtos);
    }

    /** GET FindActorsinMovie/{id}: the actors linked to the movie; an unknown movie id gives
        an empty list. */
    method FindActorsinMovie(id: int) returns (r: Response<seq<ActorDto>>)
      requires db.Valid()
      ensures r.Ok? && Queries.ListsActors(r.body, db.actors, Queries.ActorsInMovie(db.Tables(), id))
      ensures id !in db.movies ==> r == Ok([])
    {
      var keys := Queries.ActorsInMovie(db.Tables(), id);
      var ids, actors := Lists.ToList(db.actors, keys, db.nextActorId);
      var dtos := Lists.Project(actors, ActorDtoOf);
      assert ActorIds(dtos) == ids;
      r := Ok(dtos);
      if id !in db.movies {
        Queries.UnknownMovieHasNoLinks(db.Tables(), id);
        Queries.ListsActorsCount(dtos, db.actors, keys);
      }
    }

    /** GET GetPotentialActors/{id}: the actors not linked to the movie. */
    method GetPotentialActors(id: int) returns (r: Response<seq<ActorDto>>)
      requires db.Valid()
      ensures r.Ok? && Queries.ListsActors(r.body, db.actors, Queries.PotentialActorsOfMovie(db.Tables(), id))
    {
      var keys := Queries.PotentialActorsOfMovie(db.Tables(), id);
      var ids, actors := Lists.ToList(db.actors, keys, db.nextActorId);
      var dtos := Lists.Project(actors, ActorDtoOf);
      assert ActorIds(dtos) == ids;
      r := Ok(dtos);
    }

    /** GET FindGenresofMovie/{id}: the genres linked to the movie; an unknown movie id gives
        an empty list. */
    method FindGenresofMovie(id: int) returns (r: Response<seq<GenreDto>>)
      requires db.Valid()
      ensures r.Ok? && Queries.ListsGenres(r.body, db.genres, Queries.GenresOfMovie(db.Tables(), id))
      ensures id !in db.movies ==> r == Ok([])
    {
      var keys := Queries.GenresOfMovie(db.Tables(), id);
      var ids, genres := Lists.ToList(db.genres, keys, db.nextGenreId);
      var dtos := Lists.Project(genres, GenreDtoOf);
      assert GenreIds(dtos) == ids;
      r := Ok(dtos);
      if id !in db.movies {
        Queries.UnknownMovieHasNoLinks(db.Tables(), id);
        Lists.EachOnceCount(ids, keys);
      }
    }

    /** POST UpdateMovie/{id}: 400 for an invalid model state, 500 when no body was posted,
        400 for an id that differs from the body's, 404 when the row is gone, 500 when the
        new DirectorID names no director, otherwise the row is overwritten and 204 is sent. */
    method UpdateMovie(id: int, body: Body<Movie>, modelValid: bool) returns (r: Response<()>)
      requires db.Valid()
      modifies db
      ensures db.Valid()
      ensures !modelValid ==> r == BadRequest
      ensures modelValid && body.None? ==> r == ServerError
      ensures modelValid && body.Some? && id != body.value.movieId ==> r == BadRequest
      ensures modelValid && body.Some? && id == body.value.movieId ==>
                r == if id !in old(db.movies) then NotFound
                     else if body.value.directorId in old(db.directors) then NoContent
                     else ServerError
      ensures r == NoContent ==> db.Tables() == Schema.UpdateMovie(old(db.Tables()), body.value)
      ensures r != NoContent ==> db.Tables() == old(db.Tables())
    {
      if !modelValid {
        return BadRequest;
      }
      if body.None? {
        return ServerError;
      }
      var movie := body.value;
      if id != movie.movieId {
        return BadRequest;
      }
      var saved := db.ModifyMovie(movie);
      if saved == RowMissing {
        // DbUpdateConcurrencyException; the row being gone, MovieExists is false
        assert !MovieExists(id);
        return NotFound;
      }
      if saved == ForeignKeyViolation {
        // DbUpdateException is not caught by the action
        return ServerError;
      }
      r := NoContent;
    }

    /** POST AddMovie: 400 for an invalid model state, 500 when no body was posted or its
        DirectorID names no director; otherwise the movie is stored and its new id is sent
        back. */
    method AddMovie(body: Body<Movie>, modelValid: bool) returns (r: Response<int>)
      requires db.Valid()
      modifies db
      ensures db.Valid()
      ensures !modelValid ==> r == BadRequest
      ensures modelValid && body.None? ==> r == ServerError
      ensures modelValid && body.Some? && body.value.directorId !in old(db.directors) ==> r == ServerError
      ensures modelValid && body.Some? && body.value.directorId in old(db.directors) ==>
                && r == Ok(old(db.nextMovieId))
                && r.body !in old(db.movies) && r.body in db.movies
                && db.Tables() == Schema.InsertMovie(old(db.Tables()), body.value)
      ensures !r.Ok? ==> db.Tables() == old(db.Tables())
    {
      if !modelValid {
        return BadRequest;
      }
      if body.None? {
        return ServerError;
      }
      var id, saved := db.AddMovie(body.value);
      if saved != Saved {
        return ServerError;
      }
      r := Ok(id);
    }

    /** POST DeleteMovie/{id}: 404 for an unknown id; otherwise the movie and every link row
        naming it go. */
    method DeleteMovie(id: int) returns (r: Response<()>)
      requires db.Valid()
      modifies db
      ensures db.Valid()
      ensures id !in old(db.movies) ==> r == NotFound && db.Tables() == old(db.Tables())
      ensures id in old(db.movies) ==> r == Ok(()) && db.Tables() == Schema.DeleteMovie(old(db.Tables()), id)
    {
      if id !in db.movies {
        return NotFound;
      }
      db.RemoveMovie(id);
      r := Ok(());
    }

    /** Whether some row has the id: `db.Movies.Count(e => e.MovieID == id) > 0`. */
    function MovieExists(id: int): (b: bool)
      requires db.Valid()
      reads db
      ensures b <==> id in db.movies
    {
      var matching := set k | k in db.movies && db.movies[k].movieId == id;
      // the primary key makes the matching rows exactly {id} or nothing
      assert matching == if id in db.movies then {id} else {} by {
        assert forall k :: k in matching <==> k in (if id in db.movies then {id} else {});
      }
      |matching| > 0
    }
  }
}

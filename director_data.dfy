/** The director endpoints of the data API (api/DirectorData/…). */
module DirectorData {
  import opened Models
  import opened Responses
  import opened Context
  import Schema
  import Queries
  import Lists

  class DirectorDataController {
    const db: ApplicationDbContext

    constructor (db: ApplicationDbContext)
      ensures this.db == db
    {
      this.db := db;
    }

    /** GET FindDirector/{id}: 404 exactly when no director has the id. */
    method FindDirector(id: int) returns (r: Response<DirectorDto>)
      requires db.Valid()
      ensures r.NotFound? <==> id !in db.directors
      ensures r.Ok? || r.NotFound?
      ensures r.Ok? ==> && r.body.directorId == id
                        && r.body.firstName == db.directors[id].firstName
                        && r.body.lastName == db.directors[id].lastName
                        && r.body.country == db.directors[id].country
                        && r.body.bio == db.directors[id].bio
    {
      if id !in db.directors {
        return NotFound;
      }
      r := Ok(DirectorDtoOf(db.directors[id]));
    }

    /** GET ListDirectors: every stored director, once, as its DTO. */
    method ListDirectors() returns (r: Response<seq<DirectorDto>>)
      requires db.Valid()
      ensures r.Ok? && Queries.ListsDirectors(r.body, db.directors, db.directors.Keys)
    {
      var ids, directors := Lists.ToList(db.directors, db.directors.Keys, db.nextDirectorId);
      var dtos := Lists.Project(directors, DirectorDtoOf);
      assert DirectorIds(dtos) == ids;
      r := Ok(dtos);
    }

    /** GET MoviesofDirector/{id}: the movies whose DirectorID is the id; an unknown director
        gets an empty list, not 404. */
    method MoviesofDirector(id: int) returns (r: Response<seq<MovieDto>>)
      requires db.Valid()
      ensures r.Ok? && Queries.ListsMovies(r.body, db.movies, Queries.MoviesOfDirector(db.Tables(), id))
      ensures forall i :: 0 <= i < |r.body| ==> r.body[i].directorId == id
      ensures id !in db.directors ==> r == Ok([])
    {
      var keys := Queries.MoviesOfDirector(db.Tables(), id);
      var ids, movies := Lists.ToList(db.movies, keys, db.nextMovieId);
      var dtos := Lists.Project(movies, MovieDtoOf);
      assert MovieIds(dtos) == ids;
      r := Ok(dtos);
      if id !in db.directors {
        Queries.UnknownDirectorHasNoMovies(db.Tables(), id);
        Queries.ListsMoviesCount(dtos, db.movies, keys);
      }
    }

    /** POST UpdateDirector/{id}: 400 for an invalid model state, 500 when no body was posted,
        400 for an id that differs from the body's, 404 when the row is gone, otherwise the
        row is overwritten and 204 is sent. */
    method UpdateDirector(id: int, body: Body<Director>, modelValid: bool) returns (r: Response<()>)
      requires db.Valid()
      modifies db
      ensures db.Valid()
      ensures !modelValid ==> r == BadRequest
      ensures modelValid && body.None? ==> r == ServerError
      ensures modelValid && body.Some? && id != body.value.directorId ==> r == BadRequest
      ensures modelValid && body.Some? && id == body.value.directorId ==>
                r == if id in old(db.directors) then NoContent else NotFound
      ensures r == NoContent ==> db.Tables() == Schema.UpdateDirector(old(db.Tables()), body.value)
      ensures r != NoContent ==> db.Tables() == old(db.Tables())
    {
      if !modelValid {
        return BadRequest;
      }
      if body.None? {
        return ServerError;
      }
      var director := body.value;
      if id != director.directorId {
        return BadRequest;
      }
      var saved := db.ModifyDirector(director);
      if saved == RowMissing {
        // DbUpdateConcurrencyException; the row being gone, DirectorExists is false
        assert !DirectorExists(id);
        return NotFound;
      }
      r := NoContent;
    }

    /** POST AddDirector: 400 for an invalid model state, 500 when no body was posted (`Add`
        refuses null); otherwise the director is stored and sent back (201) carrying its new
        id. */
    method AddDirector(body: Body<Director>, modelValid: bool) returns (r: Response<Director>)
      requires db.Valid()
      modifies db
      ensures db.Valid()
      ensures !modelValid ==> r == BadRequest
      ensures modelValid && body.None? ==> r == ServerError
      ensures !r.Created? ==> db.Tables() == old(db.Tables())
      ensures modelValid && body.Some? ==>
                && r == Created(body.value.(directorId := old(db.nextDirectorId)))
                && r.body.directorId !in old(db.directors)
                && r.body.directorId in db.directors
                && db.directors[r.body.directorId] == r.body
                && db.Tables() == Schema.InsertDirector(old(db.Tables()), body.value)
    {
      if !modelValid {
        return BadRequest;
      }
      if body.None? {
        return ServerError;
      }
      var id := db.AddDirector(body.value);
      r := Created(body.value.(directorId := id));
    }

    /** POST DeleteDirector/{id}: 404 for an unknown id; otherwise the director goes, and with
        it (by cascade) its movies and their link rows. */
    method DeleteDirector(id: int) returns (r: Response<()>)
      requires db.Valid()
      modifies db
      ensures db.Valid()
      ensures id !in old(db.directors) ==> r == NotFound && db.Tables() == old(db.Tables())
      ensures id in old(db.directors) ==> r == Ok(()) && db.Tables() == Schema.DeleteDirector(old(db.Tables()), id)
    {
      if id !in db.directors {
        return NotFound;
      }
      db.RemoveDirector(id);
      r := Ok(());
    }

    /** Whether some row has the id: `db.Directors.Count(e => e.DirectorID == id) > 0`. */
    function DirectorExists(id: int): (b: bool)
      requires db.Valid()
      reads db
      ensures b <==> id in db.directors
    {
      var matching := set k | k in db.directors && db.directors[k].directorId == id;
      // the primary key makes the matching rows exactly {id} or nothing
      assert matching == if id in db.directors then {id} else {} by {
        assert forall k :: k in matching <==> k in (if id in db.directors then {id} else {});
      }
      |matching| > 0
    }
  }
}

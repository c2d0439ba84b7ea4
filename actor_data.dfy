/** The actor endpoints of the data API (api/ActorData/…). */
module ActorData {
  import opened Models
  import opened Responses
  import opened Context
  import Schema
  import Queries
  import Lists

  class ActorDataController {
    const db: ApplicationDbContext

    constructor (db: ApplicationDbContext)
      ensures this.db == db
    {
      this.db := db;
    }

    /** GET ListActors: every stored actor, once, as its DTO. */
    method ListActors() returns (r: Response<seq<ActorDto>>)
      requires db.Valid()
      ensures r.Ok? && Queries.ListsActors(r.body, db.actors, db.actors.Keys)
    {
      var ids, actors := Lists.ToList(db.actors, db.actors.Keys, db.nextActorId);
      var dtos := Lists.Project(actors, ActorDtoOf);
      assert ActorIds(dtos) == ids;
      r := Ok(dtos);
    }

    /** GET FindActor/{id}: 404 exactly when no actor has the id. */
    method FindActor(id: int) returns (r: Response<ActorDto>)
      requires db.Valid()
      ensures r.NotFound? <==> id !in db.actors
      ensures r.Ok? || r.NotFound?
      ensures r.Ok? ==> && r.body.actorId == id
                        && r.body.firstName == db.actors[id].firstName
                        && r.body.lastName == db.actors[id].lastName
                        && r.body.country == db.actors[id].country
                        && r.body.bio == db.actors[id].bio
    {
      if id !in db.actors {
        return NotFound;
      }
      r := Ok(ActorDtoOf(db.actors[id]));
    }

    /** GET GetMoviesofActor/{id}: the movies linked to the actor; an unknown actor id gives
        an empty list. */
    method GetMoviesofActor(id: int) returns (r: Response<seq<MovieDto>>)
      requires db.Valid()
      ensures r.Ok? && Queries.ListsMovies(r.body, db.movies, Queries.MoviesOfActor(db.Tables(), id))
      ensures id !in db.actors ==> r == Ok([])
    {
      var keys := Queries.MoviesOfActor(db.Tables(), id);
      var ids, movies := Lists.ToList(db.movies, keys, db.nextMovieId);
      var dtos := Lists.Project(movies, MovieDtoOf);
      assert MovieIds(dtos) == ids;
      r := Ok(dtos);
      if id !in db.actors {
        Queries.UnknownActorHasNoMovies(db.Tables(), id);
        Queries.ListsMoviesCount(dtos, db.movies, keys);
      }
    }

    /** GET GetPotentialMovies/{id}: the movies not linked to the actor. */
    method GetPotentialMovies(id: int) returns (r: Response<seq<MovieDto>>)
      requires db.Valid()
      ensures r.Ok? && Queries.ListsMovies(r.body, db.movies, Queries.PotentialMoviesOfActor(db.Tables(), id))
    {
      var keys := Queries.PotentialMoviesOfActor(db.Tables(), id);
      var ids, movies := Lists.ToList(db.movies, keys, db.nextMovieId);
      var dtos := Lists.Project(movies, MovieDtoOf);
      assert MovieIds(dtos) == ids;
      r := Ok(dtos);
    }

    /** GET AddMovieforActor/{actorId}/{movieId}: 404 with nothing changed when the movie or
        the actor is missing or the two are already linked; otherwise the link is added. */
    method AddMovieforActor(actorId: int, movieId: int) returns (r: Response<()>)
      requires db.Valid()
      modifies db
      ensures db.Valid()
      ensures r.NotFound? <==> movieId !in old(db.movies) || actorId !in old(db.actors)
                               || (movieId, actorId) in old(db.movieActors)
      ensures r.NotFound? || r == Ok(())
      ensures r.NotFound? ==> db.Tables() == old(db.Tables())
      ensures r.Ok? ==> (movieId, actorId) in db.movieActors
      ensures r.Ok? ==> db.Tables() == Schema.LinkMovieActor(old(db.Tables()), movieId, actorId)
    {
      if movieId !in db.movies || actorId !in db.actors || (movieId, actorId) in db.movieActors {
        return NotFound;
      }
      db.AddMovieActor(movieId, actorId);
      r := Ok(());
    }

    /** GET RemoveMovieforActor/{actorId}/{movieId}: 404 with nothing changed when the movie
        or the actor is missing or the two are not linked; otherwise exactly that link goes. */
    method RemoveMovieforActor(actorId: int, movieId: int) returns (r: Response<()>)
      requires db.Valid()
      modifies db
      ensures db.Valid()
      ensures r.NotFound? <==> movieId !in old(db.movies) || actorId !in old(db.actors)
                               || (movieId, actorId) !in old(db.movieActors)
      ensures r.NotFound? || r == Ok(())
      ensures r.NotFound? ==> db.Tables() == old(db.Tables())
      ensures r.Ok? ==> db.Tables() == Schema.UnlinkMovieActor(old(db.Tables()), movieId, actorId)
    {
      if movieId !in db.movies || actorId !in db.actors || (movieId, actorId) !in db.movieActors {
        return NotFound;
      }
      db.RemoveMovieActor(movieId, actorId);
      r := Ok(());
    }

    /** POST UpdateActor/{id}: 400 for an invalid model state, 500 when no body was posted
        (reading the null record's id throws), 400 for an id that differs from the body's,
        404 when the row is gone, otherwise the row is overwritten and 204 is sent. */
    method UpdateActor(id: int, body: Body<Actor>, modelValid: bool) returns (r: Response<()>)
      requires db.Valid()
      modifies db
      ensures db.Valid()
      ensures !modelValid ==> r == BadRequest
      ensures modelValid && body.None? ==> r == ServerError
      ensures modelValid && body.Some? && id != body.value.actorId ==> r == BadRequest
      ensures modelValid && body.Some? && id == body.value.actorId ==>
                r == if id in old(db.actors) then NoContent else NotFound
      ensures r == NoContent ==> db.Tables() == Schema.UpdateActor(old(db.Tables()), body.value)
      ensures r != NoContent ==> db.Tables() == old(db.Tables())
    {
      if !modelValid {
        return BadRequest;
      }
      if body.None? {
        return ServerError;
      }
      var actor := body.value;
      if id != actor.actorId {
        return BadRequest;
      }
      var saved := db.ModifyActor(actor);
      if saved == RowMissing {
        // DbUpdateConcurrencyException; the row being gone, ActorExists is false
        assert !ActorExists(id);
        return NotFound;
      }
      r := NoContent;
    }

    /** POST AddActor: 400 for an invalid model state, 500 when no body was posted (`Add`
        refuses null); otherwise the actor is stored and its new id is sent back. */
    method AddActor(body: Body<Actor>, modelValid: bool) returns (r: Response<int>)
      requires db.Valid()
      modifies db
      ensures db.Valid()
      ensures !modelValid ==> r == BadRequest
      ensures modelValid && body.None? ==> r == ServerError
      ensures !r.Ok? ==> db.Tables() == old(db.Tables())
      ensures modelValid && body.Some? ==>
                && r == Ok(old(db.nextActorId))
                && r.body !in old(db.actors) && r.body in db.actors
                && db.Tables() == Schema.InsertActor(old(db.Tables()), body.value)
    {
      if !modelValid {
        return BadRequest;
      }
      if body.None? {
        return ServerError;
      }
      var id := db.AddActor(body.value);
      r := Ok(id);
    }

    /** POST DeleteActor/{id}: 404 for an unknown id; otherwise the actor and its links go
        and the deleted row is sent back. */
    method DeleteActor(id: int) returns (r: Response<Actor>)
      requires db.Valid()
      modifies db
      ensures db.Valid()
      ensures id !in old(db.actors) ==> r == NotFound && db.Tables() == old(db.Tables())
      ensures id in old(db.actors) ==> && r == Ok(old(db.actors)[id])
                                       && db.Tables() == Schema.DeleteActor(old(db.Tables()), id)
    {
      if id !in db.actors {
        return NotFound;
      }
      var actor := db.actors[id];
      db.RemoveActor(id);
      r := Ok(actor);
    }

    /** Whether some row has the id: `db.Actors.Count(e => e.ActorID == id) > 0`. */
    function ActorExists(id: int): (b: bool)
      requires db.Valid()
      reads db
      ensures b <==> id in db.actors
    {
      var matching := set k | k in db.actors && db.actors[k].actorId == id;
      // the primary key makes the matching rows exactly {id} or nothing
      assert matching == if id in db.actors then {id} else {} by {
        assert forall k :: k in matching <==> k in (if id in db.actors then {id} else {});
      }
      |matching| > 0
    }
  }
}

/** The database context the four data controllers share: one field per table, kept
    consistent with the schema. Each mutator is an `Add`/`Remove`/`Entry(…).State = Modified`
    followed by `SaveChanges`, and is proved to make exactly the row change the schema
    prescribes (`Schema`), cascades included. */
module Context {
  import opened Models
  import Schema

  /** How `SaveChanges` ends for a modified or inserted row. */
  datatype SaveResult =
    | Saved
    | RowMissing            // the UPDATE touched no row: DbUpdateConcurrencyException
    | ForeignKeyViolation   // Movies.DirectorID names no director: DbUpdateException

  class ApplicationDbContext {
    var actors: map<int, Actor>
    var movies: map<int, Movie>
    var directors: map<int, Director>
    var genres: map<int, Genre>
    var movieActors: set<(int, int)>
    var genreMovies: set<(int, int)>
    var nextActorId: int
    var nextMovieId: int
    var nextDirectorId: int
    var nextGenreId: int

    /** The current contents of all tables, as one value. */
    function Tables(): Schema.Tables
      reads this
    {
      Schema.Tables(actors, movies, directors, genres, movieActors, genreMovies,
                    nextActorId, nextMovieId, nextDirectorId, nextGenreId)
    }

    ghost predicate Valid()
      reads this
    {
      Schema.Consistent(Tables())
    }

    /** A database created by the migration: empty tables, identities at 1. */
    constructor ()
      ensures Valid() && Tables() == Schema.Empty
    {
      actors, movies, directors, genres := map[], map[], map[], map[];
      movieActors, genreMovies := {}, {};
      nextActorId, nextMovieId, nextDirectorId, nextGenreId := 1, 1, 1, 1;
    }

    // ---------------------------------------------------------------- inserts

    /** `db.Actors.Add(a); db.SaveChanges()`: the row is stored under a fresh identity value. */
    method AddActor(a: Actor) returns (id: int)
      requires Valid()
      modifies this
      ensures Valid()
      ensures id == old(nextActorId) && id !in old(actors)
      ensures Tables() == Schema.InsertActor(old(Tables()), a)
    {
      id := nextActorId;
      actors := actors[id := a.(actorId := id)];
      nextActorId := id + 1;
    }

    /** `db.Movies.Add(m); db.SaveChanges()`: refused by the foreign key when the director
        does not exist, in which case nothing is stored. */
    method AddMovie(m: Movie) returns (id: int, saved: SaveResult)
      requires Valid()
      modifies this
      ensures Valid()
      ensures saved == (if m.directorId in old(directors) then Saved else ForeignKeyViolation)
      ensures saved == Saved ==> id == old(nextMovieId) && id !in old(movies)
      ensures Tables() == if saved == Saved then Schema.InsertMovie(old(Tables()), m) else old(Tables())
    {
      id := nextMovieId;
      if m.directorId !in directors {
        return id, ForeignKeyViolation;
      }
      movies := movies[id := m.(movieId := id)];
      nextMovieId := id + 1;
      saved := Saved;
    }

    method AddDirector(d: Director) returns (id: int)
      requires Valid()
      modifies this
      ensures Valid()
      ensures id == old(nextDirectorId) && id !in old(directors)
      ensures Tables() == Schema.InsertDirector(old(Tables()), d)
    {
      id := nextDirectorId;
      directors := directors[id := d.(directorId := id)];
      nextDirectorId := id + 1;
    }

    method AddGenre(g: Genre) returns (id: int)
      requires Valid()
      modifies this
      ensures Valid()
      ensures id == old(nextGenreId) && id !in old(genres)
      ensures Tables() == Schema.InsertGenre(old(Tables()), g)
    {
      id := nextGenreId;
      genres := genres[id := g.(genreId := id)];
      nextGenreId := id + 1;
    }

    // ---------------------------------------------------------------- updates

    /** `db.Entry(a).State = Modified; db.SaveChanges()`: every column of the row with the
        record's key is overwritten; no row with that key means zero rows affected. */
    method ModifyActor(a: Actor) returns (saved: SaveResult)
      requires Valid()
      modifies this
      ensures Valid()
      ensures saved == (if a.actorId in old(actors) then Saved else RowMissing)
      ensures Tables() == if saved == Saved then Schema.UpdateActor(old(Tables()), a) else old(Tables())
    {
      if a.actorId !in actors {
        return RowMissing;
      }
      actors := actors[a.actorId := a];
      saved := Saved;
    }

    /** As `ModifyActor`; a row that does exist is still refused when its new DirectorID
        names no director. */
    method ModifyMovie(m: Movie) returns (saved: SaveResult)
      requires Valid()
      modifies this
      ensures Valid()
      ensures saved == (if m.movieId !in old(movies) then RowMissing
                        else if m.directorId !in old(directors) then ForeignKeyViolation
                        else Saved)
      ensures Tables() == if saved == Saved then Schema.UpdateMovie(old(Tables()), m) else old(Tables())
    {
      if m.movieId !in movies {
        return RowMissing;
      }
      if m.directorId !in directors {
        return ForeignKeyViolation;
      }
      movies := movies[m.movieId := m];
      saved := Saved;
    }

    method ModifyDirector(d: Director) returns (saved: SaveResult)
      requires Valid()
      modifies this
      ensures Valid()
      ensures saved == (if d.directorId in old(directors) then Saved else RowMissing)
      ensures Tables() == if saved == Saved then Schema.UpdateDirector(old(Tables()), d) else old(Tables())
    {
      if d.directorId !in directors {
        return RowMissing;
      }
      directors := directors[d.directorId := d];
      saved := Saved;
    }

    method ModifyGenre(g: Genre) returns (saved: SaveResult)
      requires Valid()
      modifies this
      ensures Valid()
      ensures saved == (if g.genreId in old(genres) then Saved else RowMissing)
      ensures Tables() == if saved == Saved then Schema.UpdateGenre(old(Tables()), g) else old(Tables())
    {
      if g.genreId !in genres {
        return RowMissing;
      }
      genres := genres[g.genreId := g];
      saved := Saved;
    }

    // ---------------------------------------------------------------- deletes, with their cascades

    /** `db.Actors.Remove(actor); db.SaveChanges()`. */
    method RemoveActor(id: int)
      requires Valid() && id in actors
      modifies this
      ensures Valid()
      ensures Tables() == Schema.DeleteActor(old(Tables()), id)
    {
      actors := actors - {id};
      movieActors := set p | p in movieActors && p.1 != id;
    }

    method RemoveMovie(id: int)
      requires Valid() && id in movies
      modifies this
      ensures Valid()
      ensures Tables() == Schema.DeleteMovie(old(Tables()), id)
    {
      movies := movies - {id};
      movieActors := set p | p in movieActors && p.0 != id;
      genreMovies := set p | p in genreMovies && p.1 != id;
    }

    method RemoveDirector(id: int)
      requires Valid() && id in directors
      modifies this
      ensures Valid()
      ensures Tables() == Schema.DeleteDirector(old(Tables()), id)
    {
      directors := directors - {id};
      movies := map k | k in movies && movies[k].directorId != id :: movies[k];
      movieActors := set p | p in movieActors && p.0 in movies;
      genreMovies := set p | p in genreMovies && p.1 in movies;
    }

    method RemoveGenre(id: int)
      requires Valid() && id in genres
      modifies this
      ensures Valid()
      ensures Tables() == Schema.DeleteGenre(old(Tables()), id)
    {
      genres := genres - {id};
      genreMovies := set p | p in genreMovies && p.0 != id;
    }

    // ---------------------------------------------------------------- MovieActors rows

    /** Adding the movie to the actor's Movies collection and saving: one MovieActors row. */
    method AddMovieActor(movie: int, actor: int)
      requires Valid() && movie in movies && actor in actors
      modifies this
      ensures Valid()
      ensures Tables() == Schema.LinkMovieActor(old(Tables()), movie, actor)
    {
      movieActors := movieActors + {(movie, actor)};
    }

    /** Removing the movie from the actor's Movies collection and saving. */
    method RemoveMovieActor(movie: int, actor: int)
      requires Valid()
      modifies this
      ensures Valid()
      ensures Tables() == Schema.UnlinkMovieActor(old(Tables()), movie, actor)
    {
      movieActors := movieActors - {(movie, actor)};
    }
  }
}

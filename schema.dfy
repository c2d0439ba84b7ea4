/** The catalogue's relational schema: the six tables the February 12 migration creates
    (Actors, Movies, Directors, Genres, MovieActors, GenreMovies), the key, foreign-key and
    identity rules it declares as one invariant, `Consistent`, and the row changes the
    database carries out on insert, update, delete (with its cascades) and on the link tables. */
module Schema {
  import opened Models

  /** The contents of the database. Link rows are pairs in the column order of their
      composite keys: MovieActors (Movie_MovieID, Actor_ActorID) and GenreMovies
      (Genre_GenreID, Movie_MovieID). `nextXId` is the identity seed of table X. */
  datatype Tables = Tables(
    actors: map<int, Actor>,
    movies: map<int, Movie>,
    directors: map<int, Director>,
    genres: map<int, Genre>,
    movieActors: set<(int, int)>,
    genreMovies: set<(int, int)>,
    nextActorId: int,
    nextMovieId: int,
    nextDirectorId: int,
    nextGenreId: int)

  /** A freshly created database: all tables empty, every identity column starting at 1. */
  const Empty := Tables(map[], map[], map[], map[], {}, {}, 1, 1, 1, 1)

  /** ActorID is the primary key and an identity column: each row is stored under its own id,
      and every id lies between 1 and the next value the identity will hand out. */
  ghost predicate ActorKeys(t: Tables) {
    1 <= t.nextActorId && forall k :: k in t.actors ==> t.actors[k].actorId == k && 1 <= k < t.nextActorId
  }

  ghost predicate MovieKeys(t: Tables) {
    1 <= t.nextMovieId && forall k :: k in t.movies ==> t.movies[k].movieId == k && 1 <= k < t.nextMovieId
  }

  ghost predicate DirectorKeys(t: Tables) {
    1 <= t.nextDirectorId && forall k :: k in t.directors ==> t.directors[k].directorId == k && 1 <= k < t.nextDirectorId
  }

  ghost predicate GenreKeys(t: Tables) {
    1 <= t.nextGenreId && forall k :: k in t.genres ==> t.genres[k].genreId == k && 1 <= k < t.nextGenreId
  }

  /** Movies.DirectorID is a non-null foreign key to Directors. */
  ghost predicate MovieDirectorKey(t: Tables) {
    forall k :: k in t.movies ==> t.movies[k].directorId in t.directors
  }

  /** Both columns of a MovieActors row are foreign keys; the composite primary key makes
      each pair occur at most once, which a set of pairs states by itself. */
  ghost predicate MovieActorsKeys(t: Tables) {
    forall p :: p in t.movieActors ==> p.0 in t.movies && p.1 in t.actors
  }

  ghost predicate GenreMoviesKeys(t: Tables) {
    forall p :: p in t.genreMovies ==> p.0 in t.genres && p.1 in t.movies
  }

  /** Everything the schema guarantees about the stored rows. */
  ghost predicate Consistent(t: Tables) {
    && ActorKeys(t) && MovieKeys(t) && DirectorKeys(t) && GenreKeys(t)
    && MovieDirectorKey(t) && MovieActorsKeys(t) && GenreMoviesKeys(t)
  }

  lemma EmptyIsConsistent()
    ensures Consistent(Empty)
  {
  }

  // ---------------------------------------------------------------- inserts

  /** Inserting an actor: the identity column assigns the next id, whatever id the row carried. */
  function InsertActor(t: Tables, a: Actor): (r: Tables)
    requires Consistent(t)
    ensures t.nextActorId in r.actors && r.actors[t.nextActorId] == a.(actorId := t.nextActorId)
    ensures Consistent(r) && t.nextActorId !in t.actors
    ensures forall k :: k in t.actors ==> k in r.actors && r.actors[k] == t.actors[k]
    ensures r.actors.Keys == t.actors.Keys + {t.nextActorId}
    ensures r.(actors := t.actors, nextActorId := t.nextActorId) == t
  {
    var id := t.nextActorId;
    t.(actors := t.actors[id := a.(actorId := id)], nextActorId := id + 1)
  }

  /** Inserting a movie; the foreign key on DirectorID is what keeps the schema consistent, so
      the database refuses the row when its director does not exist (see `Context`). */
  function InsertMovie(t: Tables, m: Movie): (r: Tables)
    requires Consistent(t)
    ensures t.nextMovieId in r.movies && r.movies[t.nextMovieId] == m.(movieId := t.nextMovieId)
    ensures t.nextMovieId !in t.movies
    ensures m.directorId in t.directors ==> Consistent(r)
    ensures forall k :: k in t.movies ==> k in r.movies && r.movies[k] == t.movies[k]
    ensures r.movies.Keys == t.movies.Keys + {t.nextMovieId}
    ensures r.(movies := t.movies, nextMovieId := t.nextMovieId) == t
  {
    var id := t.nextMovieId;
    t.(movies := t.movies[id := m.(movieId := id)], nextMovieId := id + 1)
  }

  function InsertDirector(t: Tables, d: Director): (r: Tables)
    requires Consistent(t)
    ensures t.nextDirectorId in r.directors && r.directors[t.nextDirectorId] == d.(directorId := t.nextDirectorId)
    ensures Consistent(r) && t.nextDirectorId !in t.directors
    ensures forall k :: k in t.directors ==> k in r.directors && r.directors[k] == t.directors[k]
    ensures r.directors.Keys == t.directors.Keys + {t.nextDirectorId}
    ensures r.(directors := t.directors, nextDirectorId := t.nextDirectorId) == t
  {
    var id := t.nextDirectorId;
    t.(directors := t.directors[id := d.(directorId := id)], nextDirectorId := id + 1)
  }

  function InsertGenre(t: Tables, g: Genre): (r: Tables)
    requires Consistent(t)
    ensures t.nextGenreId in r.genres && r.genres[t.nextGenreId] == g.(genreId := t.nextGenreId)
    ensures Consistent(r) && t.nextGenreId !in t.genres
    ensures forall k :: k in t.genres ==> k in r.genres && r.genres[k] == t.genres[k]
    ensures r.genres.Keys == t.genres.Keys + {t.nextGenreId}
    ensures r.(genres := t.genres, nextGenreId := t.nextGenreId) == t
  {
    var id := t.nextGenreId;
    t.(genres := t.genres[id := g.(genreId := id)], nextGenreId := id + 1)
  }

  // ---------------------------------------------------------------- updates

  /** Overwriting every column of an existing actor row; links and other rows stay. */
  function UpdateActor(t: Tables, a: Actor): (r: Tables)
    requires a.actorId in t.actors
    ensures Consistent(t) ==> Consistent(r)
    ensures r.actors.Keys == t.actors.Keys && r.actors[a.actorId] == a
    ensures forall k :: k in t.actors && k != a.actorId ==> r.actors[k] == t.actors[k]
    ensures r.(actors := t.actors) == t
  {
    t.(actors := t.actors[a.actorId := a])
  }

  /** Overwriting an existing movie row; it stays consistent when the new DirectorID exists. */
  function UpdateMovie(t: Tables, m: Movie): (r: Tables)
    requires m.movieId in t.movies
    ensures Consistent(t) && m.directorId in t.directors ==> Consistent(r)
    ensures r.movies.Keys == t.movies.Keys && r.movies[m.movieId] == m
    ensures forall k :: k in t.movies && k != m.movieId ==> r.movies[k] == t.movies[k]
    ensures r.(movies := t.movies) == t
  {
    t.(movies := t.movies[m.movieId := m])
  }

  function UpdateDirector(t: Tables, d: Director): (r: Tables)
    requires d.directorId in t.directors
    ensures Consistent(t) ==> Consistent(r)
    ensures r.directors.Keys == t.directors.Keys && r.directors[d.directorId] == d
    ensures forall k :: k in t.directors && k != d.directorId ==> r.directors[k] == t.directors[k]
    ensures r.(directors := t.directors) == t
  {
    t.(directors := t.directors[d.directorId := d])
  }

  function UpdateGenre(t: Tables, g: Genre): (r: Tables)
    requires g.genreId in t.genres
    ensures Consistent(t) ==> Consistent(r)
    ensures r.genres.Keys == t.genres.Keys && r.genres[g.genreId] == g
    ensures forall k :: k in t.genres && k != g.genreId ==> r.genres[k] == t.genres[k]
    ensures r.(genres := t.genres) == t
  {
    t.(genres := t.genres[g.genreId := g])
  }

  // ---------------------------------------------------------------- deletes

  /** Deleting an actor; ON DELETE CASCADE on MovieActors.Actor_ActorID removes its links,
      and the movies at the other end of those links stay. */
  function DeleteActor(t: Tables, id: int): (r: Tables)
    ensures Consistent(t) ==> Consistent(r)
    ensures r.actors.Keys == t.actors.Keys - {id}
    ensures forall k :: k in r.actors ==> r.actors[k] == t.actors[k]
    ensures forall p :: p in r.movieActors <==> p in t.movieActors && p.1 != id
    ensures r.(actors := t.actors, movieActors := t.movieActors) == t
  {
    t.(actors := t.actors - {id},
       movieActors := (set p | p in t.movieActors && p.1 != id))
  }

  /** Deleting a movie; both link tables cascade on Movie_MovieID, while the actors and genres
      at the other end stay. */
  function DeleteMovie(t: Tables, id: int): (r: Tables)
    ensures Consistent(t) ==> Consistent(r)
    ensures r.movies.Keys == t.movies.Keys - {id}
    ensures forall k :: k in r.movies ==> r.movies[k] == t.movies[k]
    ensures forall p :: p in r.movieActors <==> p in t.movieActors && p.0 != id
    ensures forall p :: p in r.genreMovies <==> p in t.genreMovies && p.1 != id
    ensures r.(movies := t.movies, movieActors := t.movieActors, genreMovies := t.genreMovies) == t
  {
    t.(movies := t.movies - {id},
       movieActors := (set p | p in t.movieActors && p.0 != id),
       genreMovies := (set p | p in t.genreMovies && p.1 != id))
  }

  /** Deleting a director; Movies.DirectorID cascades, so every movie of that director goes,
      and with them (cascading once more) their MovieActors and GenreMovies rows. */
  function DeleteDirector(t: Tables, id: int): (r: Tables)
    ensures Consistent(t) ==> Consistent(r)
    ensures r.directors.Keys == t.directors.Keys - {id}
    ensures forall k :: k in r.directors ==> r.directors[k] == t.directors[k]
    ensures forall k :: k in t.movies ==> (k in r.movies <==> t.movies[k].directorId != id)
    ensures forall k :: k in r.movies ==> k in t.movies && r.movies[k] == t.movies[k]
    ensures forall p :: p in r.movieActors <==> p in t.movieActors && p.0 in r.movies
    ensures forall p :: p in r.genreMovies <==> p in t.genreMovies && p.1 in r.movies
    ensures r.(directors := t.directors, movies := t.movies, movieActors := t.movieActors,
               genreMovies := t.genreMovies) == t
  {
    var movies := map k | k in t.movies && t.movies[k].directorId != id :: t.movies[k];
    t.(directors := t.directors - {id},
       movies := movies,
       movieActors := (set p | p in t.movieActors && p.0 in movies),
       genreMovies := (set p | p in t.genreMovies && p.1 in movies))
  }

  /** Deleting a genre; GenreMovies cascades on Genre_GenreID and the movies stay. */
  function DeleteGenre(t: Tables, id: int): (r: Tables)
    ensures Consistent(t) ==> Consistent(r)
    ensures r.genres.Keys == t.genres.Keys - {id}
    ensures forall k :: k in r.genres ==> r.genres[k] == t.genres[k]
    ensures forall p :: p in r.genreMovies <==> p in t.genreMovies && p.0 != id
    ensures r.(genres := t.genres, genreMovies := t.genreMovies) == t
  {
    t.(genres := t.genres - {id},
       genreMovies := (set p | p in t.genreMovies && p.0 != id))
  }

  // ---------------------------------------------------------------- MovieActors rows

  /** Inserting the MovieActors row (movie, actor); it keeps the foreign keys when both exist. */
  function LinkMovieActor(t: Tables, movie: int, actor: int): (r: Tables)
    ensures Consistent(t) && movie in t.movies && actor in t.actors ==> Consistent(r)
    ensures (movie, actor) in r.movieActors
    ensures forall p :: p != (movie, actor) ==> (p in r.movieActors <==> p in t.movieActors)
    ensures r.(movieActors := t.movieActors) == t
  {
    t.(movieActors := t.movieActors + {(movie, actor)})
  }

  /** Deleting the MovieActors row (movie, actor); no entity row is touched. */
  function UnlinkMovieActor(t: Tables, movie: int, actor: int): (r: Tables)
    ensures Consistent(t) ==> Consistent(r)
    ensures (movie, actor) !in r.movieActors
    ensures forall p :: p != (movie, actor) ==> (p in r.movieActors <==> p in t.movieActors)
    ensures r.(movieActors := t.movieActors) == t
  {
    t.(movieActors := t.movieActors - {(movie, actor)})
  }

  // ---------------------------------------------------------------- properties across operations

  /** Linking a pair that was not linked and unlinking it again gives back the same tables. */
  lemma {:induction false} UnlinkUndoesLink(t: Tables, movie: int, actor: int)
    requires (movie, actor) !in t.movieActors
    ensures UnlinkMovieActor(LinkMovieActor(t, movie, actor), movie, actor) == t
  {
    assert (t.movieActors + {(movie, actor)}) - {(movie, actor)} == t.movieActors;
  }

  /** Unlinking a linked pair and linking it again gives back the same tables. */
  lemma {:induction false} LinkUndoesUnlink(t: Tables, movie: int, actor: int)
    requires (movie, actor) in t.movieActors
    ensures LinkMovieActor(UnlinkMovieActor(t, movie, actor), movie, actor) == t
  {
    assert (t.movieActors - {(movie, actor)}) + {(movie, actor)} == t.movieActors;
  }

  /** Identity values are never handed out twice: after deleting the actor just inserted,
      the tables are as before except that the identity has moved on, so the next insert
      gets a different id. */
  lemma {:induction false} IdentityNotReused(t: Tables, a: Actor)
    requires Consistent(t)
    ensures DeleteActor(InsertActor(t, a), t.nextActorId) == t.(nextActorId := t.nextActorId + 1)
  {
    var id := t.nextActorId;
    var r := DeleteActor(InsertActor(t, a), id);
    assert r.actors == t.actors;
    assert r.movieActors == t.movieActors by {
      forall p | p in t.movieActors ensures p.1 != id { }
    }
  }
}

/** The selections the data API's list queries make, as sets of keys over the tables, what a
    list answer to such a selection looks like, and how the "linked" and "potential" queries
    split a table between them. */
module Queries {
  import opened Models
  import opened Schema
  import Lists

  // ---------------------------------------------------------------- selections (the Where clauses)

  /** Movies whose Actors include the actor: `m.Actors.Any(a => a.ActorID == id)`. */
  function MoviesOfActor(t: Tables, actor: int): set<int> {
    set m | m in t.movies && (m, actor) in t.movieActors
  }

  /** Movies whose Actors do not include the actor. */
  function PotentialMoviesOfActor(t: Tables, actor: int): set<int> {
    set m | m in t.movies && (m, actor) !in t.movieActors
  }

  /** Actors whose Movies include the movie: `a.Movies.Any(m => m.MovieID == id)`. */
  function ActorsInMovie(t: Tables, movie: int): set<int> {
    set a | a in t.actors && (movie, a) in t.movieActors
  }

  function PotentialActorsOfMovie(t: Tables, movie: int): set<int> {
    set a | a in t.actors && (movie, a) !in t.movieActors
  }

  /** Genres whose Movies include the movie. */
  function GenresOfMovie(t: Tables, movie: int): set<int> {
    set g | g in t.genres && (g, movie) in t.genreMovies
  }

  /** Movies whose Genres include the genre. */
  function MoviesOfGenre(t: Tables, genre: int): set<int> {
    set m | m in t.movies && (genre, m) in t.genreMovies
  }

  /** Movies whose DirectorID is the director: `m.DirectorID == id`. */
  function MoviesOfDirector(t: Tables, director: int): set<int> {
    set m | m in t.movies && t.movies[m].directorId == director
  }

  /** Directors whose Movies include the movie: `d.Movies.Any(m => m.MovieID == id)`. */
  function DirectorsOfMovie(t: Tables, movie: int): set<int> {
    set d | d in t.directors && movie in t.movies && t.movies[movie].directorId == d
  }

  // ---------------------------------------------------------------- list answers

  /** `dtos` answers a query selecting `keys` of `actors`: one DTO per selected row, each
      copied from its row. */
  ghost predicate ListsActors(dtos: seq<ActorDto>, actors: map<int, Actor>, keys: set<int>) {
    && Lists.EachOnce(ActorIds(dtos), keys)
    && forall i :: 0 <= i < |dtos| ==> dtos[i].actorId in actors && dtos[i] == ActorDtoOf(actors[dtos[i].actorId])
  }

  ghost predicate ListsMovies(dtos: seq<MovieDto>, movies: map<int, Movie>, keys: set<int>) {
    && Lists.EachOnce(MovieIds(dtos), keys)
    && forall i :: 0 <= i < |dtos| ==> dtos[i].movieId in movies && dtos[i] == MovieDtoOf(movies[dtos[i].movieId])
  }

  ghost predicate ListsDirectors(dtos: seq<DirectorDto>, directors: map<int, Director>, keys: set<int>) {
    && Lists.EachOnce(DirectorIds(dtos), keys)
    && forall i :: 0 <= i < |dtos| ==> dtos[i].directorId in directors && dtos[i] == DirectorDtoOf(directors[dtos[i].directorId])
  }

  ghost predicate ListsGenres(dtos: seq<GenreDto>, genres: map<int, Genre>, keys: set<int>) {
    && Lists.EachOnce(GenreIds(dtos), keys)
    && forall i :: 0 <= i < |dtos| ==> dtos[i].genreId in genres && dtos[i] == GenreDtoOf(genres[dtos[i].genreId])
  }

  /** A list answer has exactly one entry per selected row. */
  lemma ListsMoviesCount(dtos: seq<MovieDto>, movies: map<int, Movie>, keys: set<int>)
    requires ListsMovies(dtos, movies, keys)
    ensures |dtos| == |keys|
  {
    Lists.EachOnceCount(MovieIds(dtos), keys);
  }

  lemma ListsActorsCount(dtos: seq<ActorDto>, actors: map<int, Actor>, keys: set<int>)
    requires ListsActors(dtos, actors, keys)
    ensures |dtos| == |keys|
  {
    Lists.EachOnceCount(ActorIds(dtos), keys);
  }

  // ---------------------------------------------------------------- linked versus potential

  /** For any actor id, the movies it is linked to and its potential movies share nothing
      and together are all stored movies. */
  lemma {:induction false} ActorMoviesPartition(t: Tables, actor: int)
    ensures MoviesOfActor(t, actor) * PotentialMoviesOfActor(t, actor) == {}
    ensures MoviesOfActor(t, actor) + PotentialMoviesOfActor(t, actor) == t.movies.Keys
  {
    var linked, potential := MoviesOfActor(t, actor), PotentialMoviesOfActor(t, actor);
    assert forall m :: m in linked * potential <==> m in {};
    assert forall m :: m in linked + potential <==> m in t.movies.Keys;
  }

  /** For any movie id, its cast and its potential actors share nothing and together are all
      stored actors. */
  lemma {:induction false} MovieActorsPartition(t: Tables, movie: int)
    ensures ActorsInMovie(t, movie) * PotentialActorsOfMovie(t, movie) == {}
    ensures ActorsInMovie(t, movie) + PotentialActorsOfMovie(t, movie) == t.actors.Keys
  {
    var linked, potential := ActorsInMovie(t, movie), PotentialActorsOfMovie(t, movie);
    assert forall a :: a in linked * potential <==> a in {};
    assert forall a :: a in linked + potential <==> a in t.actors.Keys;
  }

  // ---------------------------------------------------------------- selections against the link rows

  /** On consistent tables the genres of a movie are exactly the GenreMovies rows naming it. */
  lemma {:induction false} GenresOfMovieAreItsLinks(t: Tables, movie: int)
    requires Consistent(t)
    ensures GenresOfMovie(t, movie) == set p | p in t.genreMovies && p.1 == movie :: p.0
  {
    var rows := set p | p in t.genreMovies && p.1 == movie :: p.0;
    forall g | g in rows ensures g in GenresOfMovie(t, movie) {
      var p :| p in t.genreMovies && p.1 == movie && p.0 == g;
    }
    forall g | g in GenresOfMovie(t, movie) ensures g in rows {
      assert (g, movie) in t.genreMovies;
    }
    assert forall g :: g in GenresOfMovie(t, movie) <==> g in rows;
  }

  /** On consistent tables the movies of a genre are exactly the GenreMovies rows naming it. */
  lemma {:induction false} MoviesOfGenreAreItsLinks(t: Tables, genre: int)
    requires Consistent(t)
    ensures MoviesOfGenre(t, genre) == set p | p in t.genreMovies && p.0 == genre :: p.1
  {
    var rows := set p | p in t.genreMovies && p.0 == genre :: p.1;
    forall m | m in rows ensures m in MoviesOfGenre(t, genre) {
      var p :| p in t.genreMovies && p.0 == genre && p.1 == m;
    }
    forall m | m in MoviesOfGenre(t, genre) ensures m in rows {
      assert (genre, m) in t.genreMovies;
    }
    assert forall m :: m in MoviesOfGenre(t, genre) <==> m in rows;
  }

  /** On consistent tables a movie's cast is exactly the MovieActors rows naming it. */
  lemma {:induction false} ActorsInMovieAreItsLinks(t: Tables, movie: int)
    requires Consistent(t)
    ensures ActorsInMovie(t, movie) == set p | p in t.movieActors && p.0 == movie :: p.1
  {
    var rows := set p | p in t.movieActors && p.0 == movie :: p.1;
    forall a | a in rows ensures a in ActorsInMovie(t, movie) {
      var p :| p in t.movieActors && p.0 == movie && p.1 == a;
    }
    forall a | a in ActorsInMovie(t, movie) ensures a in rows {
      assert (movie, a) in t.movieActors;
    }
    assert forall a :: a in ActorsInMovie(t, movie) <==> a in rows;
  }

  /** An unknown director id selects no movie (the query answers an empty list, not 404). */
  lemma {:induction false} UnknownDirectorHasNoMovies(t: Tables, director: int)
    requires Consistent(t) && director !in t.directors
    ensures MoviesOfDirector(t, director) == {}
  {
    assert forall m :: m in MoviesOfDirector(t, director) <==> m in {};
  }

  /** An unknown actor id selects no movies: a MovieActors row names only stored actors. */
  lemma {:induction false} UnknownActorHasNoMovies(t: Tables, actor: int)
    requires Consistent(t) && actor !in t.actors
    ensures MoviesOfActor(t, actor) == {}
  {
    assert forall m :: m in MoviesOfActor(t, actor) <==> m in {};
  }

  /** An unknown genre id selects no movies. */
  lemma {:induction false} UnknownGenreHasNoMovies(t: Tables, genre: int)
    requires Consistent(t) && genre !in t.genres
    ensures MoviesOfGenre(t, genre) == {}
  {
    assert forall m :: m in MoviesOfGenre(t, genre) <==> m in {};
  }

  /** An unknown movie id has neither a cast nor genres. */
  lemma {:induction false} UnknownMovieHasNoLinks(t: Tables, movie: int)
    requires Consistent(t) && movie !in t.movies
    ensures ActorsInMovie(t, movie) == {}
    ensures GenresOfMovie(t, movie) == {}
  {
    assert forall a :: a in ActorsInMovie(t, movie) <==> a in {};
    assert forall g :: g in GenresOfMovie(t, movie) <==> g in {};
  }

  /** The director query of a movie selects exactly the movie's own director when the movie
      exists, and nothing otherwise. */
  lemma {:induction false} DirectorOfMovieIsItsDirector(t: Tables, movie: int)
    requires Consistent(t)
    ensures movie in t.movies ==> DirectorsOfMovie(t, movie) == {t.movies[movie].directorId}
    ensures movie !in t.movies ==> DirectorsOfMovie(t, movie) == {}
  {
    if movie in t.movies {
      var d := t.movies[movie].directorId;
      assert forall x :: x in DirectorsOfMovie(t, movie) <==> x in {d};
    } else {
      assert forall x :: x in DirectorsOfMovie(t, movie) <==> x in {};
    }
  }

  // ---------------------------------------------------------------- effect of the link operations on the queries

  /** After linking an existing actor to a movie, the cast of that movie gains exactly that
      actor and its potential actors lose exactly that actor. */
  lemma {:induction false} LinkMovesActorIntoCast(t: Tables, movie: int, actor: int)
    requires actor in t.actors
    ensures ActorsInMovie(LinkMovieActor(t, movie, actor), movie) == ActorsInMovie(t, movie) + {actor}
    ensures PotentialActorsOfMovie(LinkMovieActor(t, movie, actor), movie) == PotentialActorsOfMovie(t, movie) - {actor}
  {
    var u := LinkMovieActor(t, movie, actor);
    assert forall a :: a in ActorsInMovie(u, movie) <==> a in ActorsInMovie(t, movie) + {actor};
    assert forall a :: a in PotentialActorsOfMovie(u, movie) <==> a in PotentialActorsOfMovie(t, movie) - {actor};
  }

  /** After unlinking, the movie leaves the actor's movies and joins its potential movies
      (when it is a stored movie). */
  lemma {:induction false} UnlinkMovesMovieToPotential(t: Tables, movie: int, actor: int)
    requires movie in t.movies
    ensures MoviesOfActor(UnlinkMovieActor(t, movie, actor), actor) == MoviesOfActor(t, actor) - {movie}
    ensures PotentialMoviesOfActor(UnlinkMovieActor(t, movie, actor), actor) == PotentialMoviesOfActor(t, actor) + {movie}
  {
    var u := UnlinkMovieActor(t, movie, actor);
    assert forall m :: m in MoviesOfActor(u, actor) <==> m in MoviesOfActor(t, actor) - {movie};
    assert forall m :: m in PotentialMoviesOfActor(u, actor) <==> m in PotentialMoviesOfActor(t, actor) + {movie};
  }

  /** The cascade of a director deletion removes exactly the movies the director query
      selects, and afterwards that query selects nothing. */
  lemma {:induction false} DeleteDirectorRemovesItsMovies(t: Tables, id: int)
    requires Consistent(t)
    ensures DeleteDirector(t, id).movies.Keys == t.movies.Keys - MoviesOfDirector(t, id)
    ensures MoviesOfDirector(DeleteDirector(t, id), id) == {}
  {
    var u := DeleteDirector(t, id);
    assert forall m :: m in u.movies.Keys <==> m in t.movies.Keys - MoviesOfDirector(t, id);
    assert forall m :: m in MoviesOfDirector(u, id) <==> m in {};
  }
}

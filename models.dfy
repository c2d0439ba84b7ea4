/** The entity records of the catalogue and the DTO projections the data API answers with.
    Strings are `seq<char>`; a null string of the original is not distinguished from "". */
module Models {

  /** A row of the Actors table. */
  datatype Actor = Actor(
    actorId: int,
    firstName: string,
    lastName: string,
    country: string,
    bio: string,
    actorHasPic: bool,
    picExtension: string)

  /** A row of the Movies table; `directorId` is the required foreign key to Directors. */
  datatype Movie = Movie(
    movieId: int,
    title: string,
    yearReleased: int,
    review: string,
    directorId: int)

  /** A row of the Directors table. */
  datatype Director = Director(
    directorId: int,
    firstName: string,
    lastName: string,
    country: string,
    bio: string,
    directorHasPic: bool,
    picExtension: string)

  /** A row of the Genres table. */
  datatype Genre = Genre(genreId: int, genreName: string)

  /** A `[FromBody]` parameter as bound: `None` when the request carries no body, which the
      binder turns into null without a model-state error. */
  datatype Body<T> = None | Some(value: T)

  /** What the data API sends back for an actor: id, names, country and bio. */
  datatype ActorDto = ActorDto(actorId: int, firstName: string, lastName: string, country: string, bio: string)

  datatype MovieDto = MovieDto(movieId: int, title: string, yearReleased: int, review: string, directorId: int)

  datatype DirectorDto = DirectorDto(directorId: int, firstName: string, lastName: string, country: string, bio: string)

  datatype GenreDto = GenreDto(genreId: int, genreName: string)

  /** The projection every actor query applies: the picture fields are not carried over. */
  function ActorDtoOf(a: Actor): (d: ActorDto)
  {
    ActorDto(a.actorId, a.firstName, a.lastName, a.country, a.bio)
  }

  function MovieDtoOf(m: Movie): (d: MovieDto)
  {
    MovieDto(m.movieId, m.title, m.yearReleased, m.review, m.directorId)
  }

  function DirectorDtoOf(d: Director): (r: DirectorDto)
  {
    DirectorDto(d.directorId, d.firstName, d.lastName, d.country, d.bio)
  }

  function GenreDtoOf(g: Genre): (d: GenreDto)
  {
    GenreDto(g.genreId, g.genreName)
  }

  /** The ids a list of DTOs reports, in order. */
  function ActorIds(ds: seq<ActorDto>): seq<int> {
    seq(|ds|, i requires 0 <= i < |ds| => ds[i].actorId)
  }

  function MovieIds(ds: seq<MovieDto>): seq<int> {
    seq(|ds|, i requires 0 <= i < |ds| => ds[i].movieId)
  }

  function DirectorIds(ds: seq<DirectorDto>): seq<int> {
    seq(|ds|, i requires 0 <= i < |ds| => ds[i].directorId)
  }

  function GenreIds(ds: seq<GenreDto>): seq<int> {
    seq(|ds|, i requires 0 <= i < |ds| => ds[i].genreId)
  }
}

# MovieBlog data API — a Dafny model

MovieBlog is an ASP.NET Web API / Entity Framework 6 site that records actors, movies,
directors and genres. Each movie has exactly one director. Movies and actors are linked
many-to-many through the `MovieActors` table, and genres and movies through the
`GenreMovies` table. This project models the four data controllers
(`ActorDataController`, `MovieDataController`, `DirectorDataController`,
`GenreDataController`) together with the database schema that the `Up()` of migration
`202102130319447_Movie-February12` creates. It proves what each endpoint answers and what
it does to the tables.

Layout, one module per file:

- `models.dfy` (`Models`): the four entity records, their DTOs, and the projection from
  record to DTO that every list action performs.
- `schema.dfy` (`Schema`): the tables as one value `Tables`. It has four keyed maps, two
  link relations and the four identity counters. `Consistent` is the invariant the
  migration's keys enforce: primary keys, the foreign key `Movies.DirectorID`, and both
  foreign keys of each link table. The pure row transitions (insert, update, delete with
  the cascades the migration declares, link, unlink) are proved to preserve it.
- `queries.dfy` (`Queries`): the `Where` clauses of the list queries as sets of keys. It
  also defines what a correct list answer is: every selected row exactly once, each copied
  into its DTO. It holds the lemmas relating the queries to each other and to the
  transitions.
- `lists.dfy` (`Lists`): the two loops every list action runs. `ToList` materialises the
  selected rows. `Project` is the `foreach` that builds the DTO list.
- `context.dfy` (`Context`): `ApplicationDbContext` as a class with one field per table.
  Each mutator stands for an `Add`/`Remove`/`Entry(..).State = Modified` followed by
  `SaveChanges`, and is proved to make exactly the change the matching `Schema`
  transition describes.
- `responses.dfy` (`Responses`): `IHttpActionResult` as a datatype.
- `actor_data.dfy`, `movie_data.dfy`, `director_data.dfy`, `genre_data.dfy`: one class per
  controller. Each holds the shared context. A read-only action returns its response. A
  state-changing action states its response for every input, and the new state as a
  `Schema` transition of the old one.

`ModelState.IsValid` is a boolean parameter (`modelValid`) of the actions that take a body.
The body itself is a `Body<T>`: `None` when the request carries none, because the binder then
passes null without a model-state error.
An exception that the action does not catch, and that the framework answers with HTTP 500,
is the `ServerError` response.

## Model

| member | source | states |
|---|---|---|
| Schema.EmptyIsConsistent | MovieBlog/Migrations/202102130319447_Movie-February12.cs:8-151 | the empty database the migration creates satisfies every key and foreign-key constraint |
| Schema.InsertActor | MovieBlog/Migrations/202102130319447_Movie-February12.cs:10-20 | the identity column gives the new row the next unused id, whatever id it carried; the id was free before; other rows are unchanged; the tables stay consistent |
| Schema.InsertMovie | MovieBlog/Migrations/202102130319447_Movie-February12.cs:22-34 | as for actors; the tables stay consistent when the movie's DirectorID names a stored director (the foreign key at line 33) |
| Schema.InsertDirector | MovieBlog/Migrations/202102130319447_Movie-February12.cs:36-46 | a fresh identity id, the row stored under it, nothing else changed, consistency kept |
| Schema.InsertGenre | MovieBlog/Migrations/202102130319447_Movie-February12.cs:48-55 | a fresh identity id, the row stored under it, nothing else changed, consistency kept |
| Schema.UpdateActor | MovieBlog/Controllers/ActorDataController.cs:235-239 | every column of the existing row is replaced; the key set, the other rows and the links are unchanged; consistency kept |
| Schema.UpdateMovie | MovieBlog/Controllers/MovieDataController.cs:246-277 | the row is replaced; consistency kept when the new DirectorID exists; the other rows and tables are unchanged |
| Schema.UpdateDirector | MovieBlog/Controllers/DirectorDataController.cs:126-157 | the row is replaced; the other rows and tables are unchanged; consistency kept |
| Schema.UpdateGenre | MovieBlog/Controllers/GenreDataController.cs:121-152 | the row is replaced; the other rows and tables are unchanged; consistency kept |
| Schema.DeleteActor | MovieBlog/Migrations/202102130319447_Movie-February12.cs:125-136 | the actor goes; the cascade on `Actor_ActorID` removes exactly its MovieActors rows; movies and everything else stay; consistency kept |
| Schema.DeleteMovie | MovieBlog/Migrations/202102130319447_Movie-February12.cs:125-149 | the movie goes; both link tables lose exactly the rows naming it; actors, genres and directors stay; consistency kept |
| Schema.DeleteDirector | MovieBlog/Migrations/202102130319447_Movie-February12.cs:22-34 | the director goes; a movie survives exactly when its DirectorID is another director; link rows survive exactly when their movie survives; actors, genres and the identity counters stay; consistency kept |
| Schema.DeleteGenre | MovieBlog/Migrations/202102130319447_Movie-February12.cs:138-149 | the genre goes with exactly its GenreMovies rows; the movies stay; consistency kept |
| Schema.LinkMovieActor | MovieBlog/Migrations/202102130319447_Movie-February12.cs:125-136 | the pair is linked afterwards and no other pair changes; consistency kept when both ends exist |
| Schema.UnlinkMovieActor | MovieBlog/Migrations/202102130319447_Movie-February12.cs:125-136 | the pair is unlinked afterwards and no other pair changes; consistency kept |
| Schema.UnlinkUndoesLink | MovieBlog/Controllers/ActorDataController.cs:152-206 | linking an unlinked pair and then unlinking it gives back the same tables |
| Schema.LinkUndoesUnlink | MovieBlog/Controllers/ActorDataController.cs:152-206 | unlinking a linked pair and then linking it gives back the same tables |
| Schema.IdentityNotReused | MovieBlog/Migrations/202102130319447_Movie-February12.cs:14 | deleting the actor just inserted restores every table, but the identity counter stays advanced, so the id is never handed out again |
| Lists.EachOnceCount | MovieBlog/Controllers/ActorDataController.cs:29-47 | a list that names each selected key once is exactly as long as the selection |
| Lists.ToList | MovieBlog/Controllers/ActorDataController.cs:31 | running a query returns each selected row exactly once, paired with its key |
| Lists.Project | MovieBlog/Controllers/ActorDataController.cs:32-45 | the `foreach` builds one DTO per row, in row order |
| Queries.ListsMoviesCount | MovieBlog/Controllers/MovieDataController.cs:30-48 | a movie list answer has exactly one entry per selected movie |
| Queries.ListsActorsCount | MovieBlog/Controllers/ActorDataController.cs:29-47 | an actor list answer has exactly one entry per selected actor |
| Queries.ActorMoviesPartition | MovieBlog/Controllers/ActorDataController.cs:88-142 | an actor's movies and potential movies are disjoint and together are all stored movies |
| Queries.MovieActorsPartition | MovieBlog/Controllers/MovieDataController.cs:153-199 | a movie's cast and its potential actors are disjoint and together are all stored actors |
| Queries.GenresOfMovieAreItsLinks | MovieBlog/Controllers/MovieDataController.cs:212-230 | on consistent tables, the genres the query selects are exactly the GenreMovies rows naming the movie |
| Queries.MoviesOfGenreAreItsLinks | MovieBlog/Controllers/GenreDataController.cs:86-107 | on consistent tables, the movies the query selects are exactly the GenreMovies rows naming the genre |
| Queries.ActorsInMovieAreItsLinks | MovieBlog/Controllers/MovieDataController.cs:153-174 | on consistent tables, the cast the query selects is exactly the MovieActors rows naming the movie |
| Queries.UnknownDirectorHasNoMovies | MovieBlog/Controllers/DirectorDataController.cs:91-112 | an unknown director id selects no movies |
| Queries.UnknownActorHasNoMovies | MovieBlog/Controllers/ActorDataController.cs:88-109 | on consistent tables, an unknown actor id selects no movies |
| Queries.UnknownGenreHasNoMovies | MovieBlog/Controllers/GenreDataController.cs:86-107 | on consistent tables, an unknown genre id selects no movies |
| Queries.UnknownMovieHasNoLinks | MovieBlog/Controllers/MovieDataController.cs:153-230 | on consistent tables, an unknown movie id selects neither actors nor genres |
| Queries.DirectorOfMovieIsItsDirector | MovieBlog/Controllers/MovieDataController.cs:92-108 | the director query selects exactly the movie's own director, or nothing when the movie does not exist |
| Queries.LinkMovesActorIntoCast | MovieBlog/Controllers/ActorDataController.cs:152-172 | after a link, the movie's cast gains exactly that actor and its potential actors lose exactly that actor |
| Queries.UnlinkMovesMovieToPotential | MovieBlog/Controllers/ActorDataController.cs:186-206 | after an unlink, the actor's movies lose exactly that movie and its potential movies gain it |
| Queries.DeleteDirectorRemovesItsMovies | MovieBlog/Controllers/DirectorDataController.cs:194-206 | deleting a director removes exactly the movies the director query selects, and afterwards that query selects nothing |
| Context.ApplicationDbContext.constructor | MovieBlog/Migrations/202102130319447_Movie-February12.cs:8-151 | a new database has the migration's empty, consistent tables with identities at 1 |
| Context.ApplicationDbContext.AddActor | MovieBlog/Controllers/ActorDataController.cs:275-276 | the context becomes `Schema.InsertActor` of the old one; the returned id was free and is the counter's value |
| Context.ApplicationDbContext.AddMovie | MovieBlog/Controllers/MovieDataController.cs:300-301 | saved exactly when the director exists, and then equal to `Schema.InsertMovie`; otherwise a foreign-key violation with nothing stored |
| Context.ApplicationDbContext.AddDirector | MovieBlog/Controllers/DirectorDataController.cs:178-179 | the context becomes `Schema.InsertDirector` of the old one |
| Context.ApplicationDbContext.AddGenre | MovieBlog/Controllers/GenreDataController.cs:173-174 | the context becomes `Schema.InsertGenre` of the old one |
| Context.ApplicationDbContext.ModifyActor | MovieBlog/Controllers/ActorDataController.cs:235-239 | a missing row gives a concurrency failure with nothing changed; otherwise `Schema.UpdateActor` |
| Context.ApplicationDbContext.ModifyMovie | MovieBlog/Controllers/MovieDataController.cs:258-262 | a missing row gives a concurrency failure; an unknown DirectorID gives a foreign-key violation; both change nothing; otherwise `Schema.UpdateMovie` |
| Context.ApplicationDbContext.ModifyDirector | MovieBlog/Controllers/DirectorDataController.cs:138-142 | a missing row gives a concurrency failure with nothing changed; otherwise `Schema.UpdateDirector` |
| Context.ApplicationDbContext.ModifyGenre | MovieBlog/Controllers/GenreDataController.cs:133-137 | a missing row gives a concurrency failure with nothing changed; otherwise `Schema.UpdateGenre` |
| Context.ApplicationDbContext.RemoveActor | MovieBlog/Controllers/ActorDataController.cs:301-302 | the context becomes `Schema.DeleteActor` of the old one, cascade included; consistency kept |
| Context.ApplicationDbContext.RemoveMovie | MovieBlog/Controllers/MovieDataController.cs:325-326 | the context becomes `Schema.DeleteMovie` of the old one, cascades included |
| Context.ApplicationDbContext.RemoveDirector | MovieBlog/Controllers/DirectorDataController.cs:202-203 | the context becomes `Schema.DeleteDirector` of the old one, cascades through movies to links included |
| Context.ApplicationDbContext.RemoveGenre | MovieBlog/Controllers/GenreDataController.cs:197-198 | the context becomes `Schema.DeleteGenre` of the old one |
| Context.ApplicationDbContext.AddMovieActor | MovieBlog/Controllers/ActorDataController.cs:167-169 | adding the movie to the actor's collection and saving gives `Schema.LinkMovieActor` |
| Context.ApplicationDbContext.RemoveMovieActor | MovieBlog/Controllers/ActorDataController.cs:201-203 | removing the movie from the actor's collection and saving gives `Schema.UnlinkMovieActor` |
| ActorData.ActorDataController.ListActors | MovieBlog/Controllers/ActorDataController.cs:29-47 | answers 200 with every stored actor exactly once, each DTO copied from its row |
| ActorData.ActorDataController.FindActor | MovieBlog/Controllers/ActorDataController.cs:60-76 | 404 exactly when the id is not stored; otherwise 200 with the row's five DTO fields |
| ActorData.ActorDataController.GetMoviesofActor | MovieBlog/Controllers/ActorDataController.cs:88-109 | 200 with exactly the movies linked to the actor, once each, as DTOs; an unknown actor gets an empty list |
| ActorData.ActorDataController.GetPotentialMovies | MovieBlog/Controllers/ActorDataController.cs:121-142 | 200 with exactly the movies not linked to the actor, once each |
| ActorData.ActorDataController.AddMovieforActor | MovieBlog/Controllers/ActorDataController.cs:152-172 | 404 with nothing changed exactly when the movie or the actor is missing or the pair is already linked; otherwise 200 and the pair is linked |
| ActorData.ActorDataController.RemoveMovieforActor | MovieBlog/Controllers/ActorDataController.cs:186-206 | 404 with nothing changed exactly when the movie or the actor is missing or the pair is not linked; otherwise 200 and exactly that link goes |
| ActorData.ActorDataController.UpdateActor | MovieBlog/Controllers/ActorDataController.cs:223-254 | 400 for an invalid model state; 500 when no body was posted (reading the null record's id throws); 400 for a mismatched id; 404 for a missing row; otherwise 204 and the row is overwritten; only 204 changes the tables |
| ActorData.ActorDataController.AddActor | MovieBlog/Controllers/ActorDataController.cs:268-279 | 400 for an invalid model state, 500 when no body was posted (`Add` refuses null), both with nothing changed; otherwise 200 with the new, previously unused id, and the row stored under it |
| ActorData.ActorDataController.DeleteActor | MovieBlog/Controllers/ActorDataController.cs:293-305 | 404 with nothing changed for an unknown id; otherwise 200 with the deleted row, and the actor and its links are gone |
| ActorData.ActorDataController.ActorExists | MovieBlog/Controllers/ActorDataController.cs:316-319 | counting the rows with the id is positive exactly when the id is stored |
| MovieData.MovieDataController.ListMovies | MovieBlog/Controllers/MovieDataController.cs:30-48 | 200 with every stored movie exactly once as a DTO |
| MovieData.MovieDataController.FindMovie | MovieBlog/Controllers/MovieDataController.cs:61-79 | 404 exactly when the id is not stored; otherwise 200 with the row's five DTO fields |
| MovieData.MovieDataController.GetDirectorOfMovie | MovieBlog/Controllers/MovieDataController.cs:92-108 | 200 with the DTO of the movie's own director; 500 when the movie does not exist |
| MovieData.MovieDataController.GetDirectors | MovieBlog/Controllers/MovieDataController.cs:120-140 | 200 with every stored director exactly once |
| MovieData.MovieDataController.FindActorsinMovie | MovieBlog/Controllers/MovieDataController.cs:153-174 | 200 with exactly the actors linked to the movie; an unknown movie gets an empty list |
| MovieData.MovieDataController.GetPotentialActors | MovieBlog/Controllers/MovieDataController.cs:178-199 | 200 with exactly the actors not linked to the movie |
| MovieData.MovieDataController.FindGenresofMovie | MovieBlog/Controllers/MovieDataController.cs:212-230 | 200 with exactly the genres linked to the movie; an unknown movie gets an empty list |
| MovieData.MovieDataController.UpdateMovie | MovieBlog/Controllers/MovieDataController.cs:246-277 | 400 for an invalid model state; 500 when no body was posted (reading the null record's id throws); 400 for a mismatched id; 404 for a missing row; 500 when the new DirectorID names no director; otherwise 204 and the row is overwritten; only 204 changes the tables |
| MovieData.MovieDataController.AddMovie | MovieBlog/Controllers/MovieDataController.cs:293-304 | 400 for an invalid model state; 500 when no body was posted or its DirectorID is unknown; otherwise 200 with a fresh id and the row stored; only 200 changes the tables |
| MovieData.MovieDataController.DeleteMovie | MovieBlog/Controllers/MovieDataController.cs:317-329 | 404 with nothing changed for an unknown id; otherwise 200 and the movie goes with its link rows |
| MovieData.MovieDataController.MovieExists | MovieBlog/Controllers/MovieDataController.cs:340-343 | counting the rows with the id is positive exactly when the id is stored |
| DirectorData.DirectorDataController.FindDirector | MovieBlog/Controllers/DirectorDataController.cs:30-48 | 404 exactly when the id is not stored; otherwise 200 with the row's five DTO fields |
| DirectorData.DirectorDataController.ListDirectors | MovieBlog/Controllers/DirectorDataController.cs:60-78 | 200 with every stored director exactly once |
| DirectorData.DirectorDataController.MoviesofDirector | MovieBlog/Controllers/DirectorDataController.cs:91-112 | 200 with exactly the movies whose DirectorID is the id; an unknown director gets an empty list, not 404 |
| DirectorData.DirectorDataController.UpdateDirector | MovieBlog/Controllers/DirectorDataController.cs:126-157 | 400 for an invalid model state; 500 when no body was posted (reading the null record's id throws); 400 for a mismatched id; 404 for a missing row; otherwise 204 and the row is overwritten; only 204 changes the tables |
| DirectorData.DirectorDataController.AddDirector | MovieBlog/Controllers/DirectorDataController.cs:171-182 | 400 for an invalid model state, 500 when no body was posted, both with nothing changed; otherwise 201 with the posted director carrying its new, previously unused id, stored under that id |
| DirectorData.DirectorDataController.DeleteDirector | MovieBlog/Controllers/DirectorDataController.cs:194-206 | 404 with nothing changed for an unknown id; otherwise 200, and the director goes with all of its movies and their link rows |
| DirectorData.DirectorDataController.DirectorExists | MovieBlog/Controllers/DirectorDataController.cs:217-220 | counting the rows with the id is positive exactly when the id is stored |
| GenreData.GenreDataController.ListGenres | MovieBlog/Controllers/GenreDataController.cs:29-45 | 200 with every stored genre exactly once |
| GenreData.GenreDataController.FindGenre | MovieBlog/Controllers/GenreDataController.cs:59-73 | 404 exactly when the id is not stored; otherwise 200 with the genre's id and name |
| GenreData.GenreDataController.MoviesofGenre | MovieBlog/Controllers/GenreDataController.cs:86-107 | 200 with exactly the movies linked to the genre; an unknown genre gets an empty list |
| GenreData.GenreDataController.UpdateGenre | MovieBlog/Controllers/GenreDataController.cs:121-152 | 400 for an invalid model state; 500 when no body was posted (reading the null record's id throws); 400 for a mismatched id; 404 for a missing row; otherwise 204 and the row is overwritten; only 204 changes the tables |
| GenreData.GenreDataController.AddGenre | MovieBlog/Controllers/GenreDataController.cs:166-177 | 400 for an invalid model state, 500 when no body was posted, both with nothing changed; otherwise 200 with the new, previously unused id, and the row stored under it |
| GenreData.GenreDataController.DeleteGenre | MovieBlog/Controllers/GenreDataController.cs:189-201 | 404 with nothing changed for an unknown id; otherwise 200, and the genre goes with its GenreMovies rows while the movies stay |
| GenreData.GenreDataController.GenreExists | MovieBlog/Controllers/GenreDataController.cs:212-215 | counting the rows with the id is positive exactly when the id is stored |

## Left out

- The presentation controllers (`ActorController`, `MovieController`, `DirectorController`,
  `GenreController`), the view models, the picture upload endpoints and the ASP.NET
  Identity tables of the migration are outside this model.
- `Down()` of the migration and the later migrations (`March7`, `Jerrin`) are not modelled.
  Those migrations add picture columns to Actors, Directors and Movies, and `Jerrin` then
  replaces the Movies column `PlayerHasPic` with `MovieHasPic`. The `Actor` and `Director`
  records carry their picture columns (`ActorHasPic`/`DirectorHasPic`, `PicExtension`). The
  `Movie` record omits them because `Movie.cs` has no such properties, so Entity Framework
  never reads or writes those columns.
- Update actions: the branch that rethrows a `DbUpdateConcurrencyException` even though the
  row still exists needs a concurrent writer. The model has none, so a failed update always
  means the row is missing, and the answer is 404.
- Update actions overwrite every column of the row, the picture flag and extension
  included, because the whole entity is marked `Modified`. The presentation controllers
  send pictures to separate `Update*Pic` routes (for example
  `MovieBlog/Controllers/ActorController.cs:250-257`), which the data controllers do not
  define. But `Entry(..).State = Modified` writes the picture columns too, and the model
  follows the code.
- DTO picture fields: the projections in the list and find actions never set
  `ActorHasPic`/`DirectorHasPic`/`PicExtension` on the DTOs. So those DTO fields always keep
  their defaults, and the DTO datatypes carry only the five copied fields.
- Row order: the queries have no `ORDER BY`, so the database may return rows in any
  order. The model returns them in key order, and the contracts state "each selected row
  exactly once" without promising an order.
- Schema.InsertActor (and the other inserts): identities are unbounded integers. The 32-bit
  overflow of an `int` identity column is not modelled, and neither is an identity value
  consumed by an insert that fails.
- Null strings and the navigation collections (`Movies`, `Actors`, `Genres`) carried in a
  posted body are not modelled. A posted body is either missing (`None`: the binder gives
  null, and the action answers 500) or the record's scalar columns.
- `AddMovieforActor` assigns a fresh one-element list to the actor's `Movies` before saving.
  The actor's other links were not loaded into the context, so the change tracker records
  only the one added link row. The model states that net effect, and does not model the
  change tracker or what the assignment would do in a context where those links had been
  loaded.
- `Dispose` and all connection, transaction and HTTP routing behaviour are left out.

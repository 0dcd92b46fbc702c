# Movies REST API: validator and in-memory store

This project models the core of a small Express API that serves a list of movies held in memory.
The core has two parts:

- **The movie schema** (`schemas/movies.js`). It is a zod object schema with two entry points.
  `validateMovie` requires every field and gives `rate` the default 5.5.
  `validatePartialMovie` makes every field optional and applies no default.
  Either one maps an untyped request body to the parsed data or to a list of field-level problems.
  Module `MovieSchema` in `schema.dfy` models it over the JSON values of module `Json` (`json.dfy`).
- **The store and its handlers** (`app.js`, lines 36-112). The module-level `movies` array is the store.
  The handlers list it (with an optional case-insensitive genre filter), get, create, delete and patch.
  Module `MovieStore` in `store.dfy` models it as class `Store`, with a `movies: seq<Movie>` field and one method per handler.
  Create, Delete and Patch reassign that field. Each handler returns a `Reply`:
  - `Ok` with its status (200, or 201 for create);
  - `NotFound` with its status (404 for get, 400 for delete and patch);
  - `Rejected` with status 400 and the validation problems.

`results.dfy` holds the `Option` and `Result` types the other modules share.

Points where the schema is looser or stricter than one might expect; the model follows the code:
- `title` may be the empty string. Nothing in the schema requires it to be non-empty.
- `rate` must be strictly greater than 0. `.positive()` rejects 0 even though `.min(0)` allows it.
- `genre` may be empty or repeat a value.
- A missing id gives 404 on get but 400 on delete and patch.
- Lookups take the first movie with the id. Nothing checks that ids are unique, so uniqueness appears only as an invariant the operations preserve (`UniqueIds`). No handler contract assumes unique ids; only the lemma `FindAfterDelete` takes them as a hypothesis.

Problems carry the library's issue code, the path and the message.
Where the schema sets a message, the model uses it: the Spanish messages for `title`, `poster` and `genre`.
Elsewhere the model uses the library's default wording ("Required", "Number must be greater than 0", ...).
Problems are listed in schema field order, and within a field in check order.
The library reports every failed check, not only the first.

## Model

| member | source | states |
|---|---|---|
| `MovieSchema.CheckIssues` | schemas/movies.js:8-10 | The numeric checks report no problem exactly when every check holds. Every problem names the field, and there is at most one per check. |
| `MovieSchema.CheckIssuesReport` | schemas/movies.js:8-10 | Every check the number fails is reported, and every reported problem is the problem of a check the number fails. |
| `MovieSchema.ParseNumber` | schemas/movies.js:8-10 | A number field is valid exactly when it is a number that passes all its checks. A valid field yields that number unchanged. A failure blames only that field. |
| `MovieSchema.ElementIssues` | schemas/movies.js:14-26 | The element checks of `genre` report nothing exactly when every element is one of the ten genre names. Every problem points at an element of `genre` within the array's index range. |
| `MovieSchema.ElementIssuesComplete` | schemas/movies.js:14-26 | Every element of `genre` that is not a genre name is reported, at its own index. |
| `MovieSchema.ElementIssuesSound` | schemas/movies.js:14-26 | Every reported element problem is about an element that is not a genre name, at that element's index. |
| `MovieSchema.TitleField` | schemas/movies.js:4-7 | `title` passes exactly when it is a string, or when it is absent in partial mode. The data carries the input string. A failure blames only `title`. |
| `MovieSchema.YearField` | schemas/movies.js:8 | `year` passes exactly when it is an integer in [1900, 2023], or when it is absent in partial mode. The data carries that integer. |
| `MovieSchema.DurationField` | schemas/movies.js:9 | `duration` passes exactly when it is an integer greater than 0, or when it is absent in partial mode. |
| `MovieSchema.RateField` | schemas/movies.js:10 | `rate` passes exactly when it is absent or is a number in (0, 10]. An absent `rate` becomes 5.5 in full mode and stays absent in partial mode. A present `rate` is passed through. |
| `MovieSchema.PosterField` | schemas/movies.js:11-13 | `poster` passes exactly when it is a string the URL check accepts, or when it is absent in partial mode. |
| `MovieSchema.GenreField` | schemas/movies.js:14-32 | `genre` passes exactly when it is an array of genre names, or when it is absent in partial mode. The data carries the strings in order. |
| `MovieSchema.Validate` | schemas/movies.js:3-33 | Parsing succeeds exactly when the body is an object whose six fields all pass (`Acceptable`). On success the data carries each input field (`Carries`) and meets every constraint (`PatchOk`). A failure carries at least one problem. |
| `MovieSchema.ValidateMovie` | schemas/movies.js:36-38 | Full mode succeeds exactly when the body is `Acceptable` in full mode. The record satisfies the whole schema (`MovieOk`) and equals the input fields, with `rate` defaulted. On failure it gives the problems of the schema parse. |
| `MovieSchema.ValidatePartialMovie` | schemas/movies.js:40-42 | Partial mode succeeds exactly when every present field passes. The data holds exactly the present fields, each meeting its constraint. |
| `MovieSchema.ValidateBlamesOffending` | schemas/movies.js:3-33 | When an object body fails, the fields its problems name are exactly the schema fields that break their constraint. |
| `MovieSchema.OffendingWithinSchema` | schemas/movies.js:3-33 | Only schema fields can be offending. An object body has no offending field exactly when it is accepted. |
| `MovieSchema.TitleMessages` | schemas/movies.js:4-7 | A missing `title` in full mode yields the "requerido" message. A `title` that is not a string yields the "debe ser string" message. |
| `MovieSchema.GenreMessages` | schemas/movies.js:27-31 | A missing `genre` in full mode yields the genre "requerido" message. A `genre` that is not an array yields the "arreglo de valores enumerados" message. |
| `MovieSchema.RateZeroRejected` | schemas/movies.js:10 | `rate` 0 is refused in both modes, and `rate` is among the offending fields. |
| `MovieSchema.NoEmptinessOrUniqueness` | schemas/movies.js:4-32 | An accepted body stays accepted when `title` becomes "", when `genre` becomes [], or when `genre` repeats a value. |
| `MovieSchema.PartialEmptyObject` | schemas/movies.js:40-42 | Partial mode accepts `{}` and yields data with no fields. |
| `MovieSchema.PartialAddsNothing` | schemas/movies.js:40-42 | On success in partial mode, the data's keys are exactly the schema keys present in the input. No default is added. |
| `MovieSchema.OutputKeys` | schemas/movies.js:3-33 | The data holds only schema keys, all six in full mode, and never `id`. |
| `MovieSchema.FullImpliesPartial` | schemas/movies.js:36-42 | Every body that full mode accepts is accepted by partial mode too. The partial data equals the full data, except that a `rate` left out stays absent. |
| `MovieStore.WithId` | app.js:66-69 | The created record has the new id and exactly the validated data (`DataOf` gives it back). |
| `MovieStore.LowerCase` | app.js:41 | Lower-casing keeps the length, leaves no letter A-Z, maps each of A-Z to its lower-case letter and leaves every other character alone. |
| `MovieStore.HasGenreMatches` | app.js:41 | A movie matches a genre it lists verbatim. It matches a filter value exactly when it matches that value lower-cased, so `action` selects a movie listing "Action". |
| `MovieStore.WithGenre` | app.js:40-42 | The genre filter keeps exactly the movies that have the requested genre, ignoring case. |
| `MovieStore.WithGenreAppend` | app.js:40-42 | Filtering distributes over concatenation, so matching movies keep their original relative order. |
| `MovieStore.WithGenreExtremes` | app.js:40-42 | If every movie matches, the filter returns the list unchanged. If none matches, it returns an empty list. |
| `MovieStore.HasGenreIgnoresCase` | app.js:41 | Two filter values that are equal after lower-casing select the same movies. |
| `MovieStore.FindIndex` | app.js:78 | The lookup returns the first index whose movie has the id, and none exactly when no movie has it. |
| `MovieStore.Store.constructor` | app.js:5 | The store starts with the seed movies. |
| `MovieStore.Store.List` | app.js:36-46 | Listing answers 200. With no genre, or an empty one, it returns the whole store in order. Otherwise it returns the genre-filtered store. |
| `MovieStore.Store.Get` | app.js:50-56 | Get answers 200 with the first movie that has the id exactly when one exists. Otherwise it answers 404. |
| `MovieStore.Store.Create` | app.js:58-74 | An invalid body is rejected with its problems and the store is unchanged. A valid body appends `{id, ...data}` as the last element and answers 201 with it. The schema invariant and unique ids (given a fresh id) are preserved. |
| `MovieStore.Store.Delete` | app.js:76-87 | An unknown id answers 400 and leaves the store unchanged. Otherwise the first movie with the id is removed and the others keep their order. Both invariants are preserved. |
| `MovieStore.Store.Patch` | app.js:89-112 | Validation comes first: an invalid body is rejected whether or not the id exists. A valid body with an unknown id answers 400. In both cases the store is unchanged. Otherwise only the first matching movie is replaced, in place, by the merge, which is returned. Both invariants are preserved. |
| `MovieStore.RemoveKeepsInvariants` | app.js:84 | Removing one movie shortens the store by one and keeps the rest in order. It keeps the schema invariant and unique ids. |
| `MovieStore.Merge` | app.js:104-107 | The merge keeps the id. An empty patch changes nothing. A patch with all six fields replaces all the movie's data. |
| `MovieStore.MergeFields` | app.js:104-107 | For each of the six fields: a field present in the patch overwrites the movie's, and an absent one keeps the movie's. |
| `MovieStore.MergeKeepsConformance` | app.js:104-109 | Merging valid patch fields into a movie that satisfies the schema gives a movie that satisfies the schema. |
| `MovieStore.MergeTwice` | app.js:104-107 | Applying a patch twice equals applying it once. A patch that sets every field overrides an earlier one. |
| `MovieStore.FindAfterCreate` | app.js:66-71 | After appending a movie with a fresh id, the lookup of that id finds the new movie. |
| `MovieStore.FindAfterAppend` | app.js:71 | Appending a movie does not change the lookup of any other id. |
| `MovieStore.CreateThenDelete` | app.js:58-87 | Creating with a fresh id and then deleting that id gives back the original store. |
| `MovieStore.FindAfterDelete` | app.js:76-87 | With unique ids, once a movie is deleted, a lookup of its id finds nothing. |
| `MovieStore.PatchRateOnly` | app.js:89-111 | Partial mode accepts `{rate: 9}`, and merging it changes only the movie's `rate`. |

## Left out

- Express wiring is not modelled: JSON body parsing, routing, the `res.status(...).json(...)` calls, `x-powered-by` and `app.listen` with the `PORT` fallback. Handlers return a `Reply` value instead.
- The CORS origin allow-list is transport middleware that never touches the store.
- `crypto.randomUUID()` is a random source. The new id is a parameter of `Create`, and freshness appears only as a hypothesis of the invariant and round-trip lemmas.
- `movies.json` is not part of this model. The seed is the constructor's argument and is assumed to hold records with the seven typed fields. The code does not validate the seed, so the schema invariant is stated as preserved, not as established.
- The URL syntax check of the validation library is a parameter `isUrl` of the validator, kept as a constant of the store. WHATWG URL parsing is not modelled.
- Numbers are reals. IEEE-754 rounding, NaN and infinities (for example an oversized JSON literal) are not modelled. `year` and `duration` become integers once they pass the integer check.
- `toLowerCase` changes only the ASCII letters A-Z. Unicode case mapping is not modelled.
- The `genre` query parameter is an optional string. A repeated parameter that Express parses into an array, on which `toLowerCase` would throw, is not modelled.
- The error body is the list of problems itself. The JSON text that the library builds and `JSON.parse` reads back is not modelled, nor are the extra issue fields (`type`, `exact`, `options`).
- JavaScript object key order in responses is not modelled.

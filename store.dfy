/** The in-memory movie collection of app.js and its five request handlers. */
module MovieStore {
  import opened Results
  import opened Json
  import opened MovieSchema

  const NotFoundMessage: string := "Película no existe"
  const DeletedMessage: string := "Película eliminada"

  /** A stored movie: the generated `id` followed by the validated fields. */
  datatype Movie = Movie(
    id: string, title: string, year: int, duration: int, rate: real, poster: string, genre: seq<string>)

  /** What a handler answers: success with its status and body, a missing
      movie with its status (404 or 400), or the validation problems (400). */
  datatype Reply<T> =
    | Ok(status: nat, body: T)
    | NotFound(status: nat, message: string)
    | Rejected(status: nat, problems: seq<Issue>)

  /* ---------------------------------------------------------------------
     Records
     --------------------------------------------------------------------- */

  /** `{ id, ...data }`. */
  function WithId(id: string, d: MovieData): (r: Movie)
    ensures r.id == id && DataOf(r) == d
  {
    Movie(id, d.title, d.year, d.duration, d.rate, d.poster, d.genre)
  }

  /** The validated fields of a stored movie (everything but `id`). */
  function DataOf(m: Movie): MovieData {
    MovieData(m.title, m.year, m.duration, m.rate, m.poster, m.genre)
  }

  /** A stored movie satisfies the full schema. */
  predicate Conforms(m: Movie, isUrl: string -> bool) {
    MovieOk(DataOf(m), isUrl)
  }

  /** `{ ...movie, ...data }`: the fields present in the patch overwrite, the others stay. */
  function Merge(m: Movie, p: MoviePatch): (r: Movie)
    ensures r.id == m.id
    ensures p == MoviePatch(None, None, None, None, None, None) ==> r == m
    ensures p.title.Some? && p.year.Some? && p.duration.Some? && p.rate.Some? && p.poster.Some? && p.genre.Some?
            ==> DataOf(r) == MovieData(p.title.value, p.year.value, p.duration.value,
                                       p.rate.value, p.poster.value, p.genre.value)
  {
    Movie(m.id, p.title.GetOr(m.title), p.year.GetOr(m.year), p.duration.GetOr(m.duration),
          p.rate.GetOr(m.rate), p.poster.GetOr(m.poster), p.genre.GetOr(m.genre))
  }

  /* ---------------------------------------------------------------------
     Case-insensitive genre match (ASCII letters)
     --------------------------------------------------------------------- */

  function Lower(c: char): char {
    if 'A' <= c <= 'Z' then (c as int + 32) as char else c
  }

  /** `toLowerCase` on ASCII: the upper-case letters A-Z become lower case, nothing else changes. */
  function LowerCase(s: string): (r: string)
    ensures |r| == |s|
    ensures forall i :: 0 <= i < |r| ==> !('A' <= r[i] <= 'Z')
    ensures forall i :: 0 <= i < |s| && !('A' <= s[i] <= 'Z') ==> r[i] == s[i]
    ensures forall i :: 0 <= i < |s| && 'A' <= s[i] <= 'Z' ==> r[i] as int == s[i] as int + 32
  {
    seq(|s|, i requires 0 <= i < |s| => Lower(s[i]))
  }

  /** `movie.genre.some(g => g.toLowerCase() === genre.toLowerCase())`. */
  predicate HasGenre(m: Movie, genre: string) {
    exists k :: 0 <= k < |m.genre| && LowerCase(m.genre[k]) == LowerCase(genre)
  }

  /** `movies.filter(...)` with the genre test above. */
  function WithGenre(ms: seq<Movie>, genre: string): (r: seq<Movie>)
    ensures |r| <= |ms|
    ensures forall m :: m in r <==> m in ms && HasGenre(m, genre)
  {
    if ms == [] then []
    else (if HasGenre(ms[0], genre) then [ms[0]] else []) + WithGenre(ms[1..], genre)
  }

  /* ---------------------------------------------------------------------
     First-match lookup
     --------------------------------------------------------------------- */

  /** `movies.findIndex(movie => movie.id === id)`, with `None` for -1. */
  function FindIndex(ms: seq<Movie>, id: string): (r: Option<nat>)
    ensures r.Some? ==> r.value < |ms| && ms[r.value].id == id
    ensures r.Some? ==> forall j :: 0 <= j < r.value ==> ms[j].id != id
    ensures r.None? <==> forall j :: 0 <= j < |ms| ==> ms[j].id != id
  {
    if ms == [] then None
    else if ms[0].id == id then Some(0)
    else match FindIndex(ms[1..], id)
      case None => None
      case Some(k) => Some(k + 1)
  }

  /** Every stored movie satisfies the full schema. */
  predicate AllConform(ms: seq<Movie>, isUrl: string -> bool) {
    forall k :: 0 <= k < |ms| ==> Conforms(ms[k], isUrl)
  }

  /** No two stored movies share an id. */
  predicate UniqueIds(ms: seq<Movie>) {
    forall j, k :: 0 <= j < k < |ms| ==> ms[j].id != ms[k].id
  }

  /* ---------------------------------------------------------------------
     The store and its handlers
     --------------------------------------------------------------------- */

  class Store {
    /** The module-level `movies` array, in insertion order. */
    var movies: seq<Movie>
    /** The URL syntax check the schema applies to `poster`. */
    const isUrl: string -> bool

    /** The store as loaded from the seed file. */
    constructor (seed: seq<Movie>, isUrl: string -> bool)
      ensures movies == seed && this.isUrl == isUrl
    {
      movies := seed;
      this.isUrl := isUrl;
    }

    /** GET /movies?genre=...: an absent or empty `genre` lists everything. */
    method List(genre: Option<string>) returns (r: Reply<seq<Movie>>)
      ensures r.Ok? && r.status == 200
      ensures genre == None || genre == Some("") ==> r.body == movies
      ensures genre.Some? && genre.value != "" ==> r.body == WithGenre(movies, genre.value)
    {
      if genre.Some? && genre.value != "" {
        r := Ok(200, WithGenre(movies, genre.value));
      } else {
        r := Ok(200, movies);
      }
    }

    /** GET /movies/:id: the first movie with that id, or 404. */
    method Get(id: string) returns (r: Reply<Movie>)
      ensures r.Ok? || r == NotFound(404, NotFoundMessage)
      ensures r.Ok? <==> exists j :: 0 <= j < |movies| && movies[j].id == id
      ensures r.Ok? ==> r.status == 200 && r.body.id == id
      ensures r.Ok? ==> exists k :: 0 <= k < |movies| && movies[k] == r.body && (forall j :: 0 <= j < k ==> movies[j].id != id)
    {
      match FindIndex(movies, id)
      case Some(k) => r := Ok(200, movies[k]);
      case None => r := NotFound(404, NotFoundMessage);
    }

    /** POST /movies: validate in full mode, then append `{ id, ...data }`. */
    method Create(body: Value, newId: string) returns (r: Reply<Movie>)
      modifies this
      ensures match ValidateMovie(body, isUrl)
        case Failure(e) => r == Rejected(400, e) && movies == old(movies)
        case Success(d) => r == Ok(201, WithId(newId, d)) && movies == old(movies) + [WithId(newId, d)]
      ensures AllConform(old(movies), isUrl) ==> AllConform(movies, isUrl)
      ensures UniqueIds(old(movies)) && (forall j :: 0 <= j < |old(movies)| ==> old(movies)[j].id != newId)
              ==> UniqueIds(movies)
    {
      match ValidateMovie(body, isUrl)
      case Failure(e) =>
        r := Rejected(400, e);
      case Success(d) =>
        var created := WithId(newId, d);
        movies := movies + [created];
        r := Ok(201, created);
    }

    /** DELETE /movies/:id: remove the first movie with that id, or 400. */
    method Delete(id: string) returns (r: Reply<string>)
      modifies this
      ensures match FindIndex(old(movies), id)
        case None => r == NotFound(400, NotFoundMessage) && movies == old(movies)
        case Some(i) => r == Ok(200, DeletedMessage) && movies == old(movies[..i] + movies[i + 1..])
      ensures AllConform(old(movies), isUrl) ==> AllConform(movies, isUrl)
      ensures UniqueIds(old(movies)) ==> UniqueIds(movies)
    {
      match FindIndex(movies, id)
      case None =>
        r := NotFound(400, NotFoundMessage);
      case Some(i) =>
        RemoveKeepsInvariants(movies, i, isUrl);
        movies := movies[..i] + movies[i + 1..];
        r := Ok(200, DeletedMessage);
    }

    /** PATCH /movies/:id: validate in partial mode first, then merge into the
        first movie with that id, in place; 400 for either failure. */
    method Patch(id: string, body: Value) returns (r: Reply<Movie>)
      modifies this
      ensures match ValidatePartialMovie(body, isUrl)
        case Failure(e) => r == Rejected(400, e) && movies == old(movies)
        case Success(p) =>
          match FindIndex(old(movies), id)
          case None => r == NotFound(400, NotFoundMessage) && movies == old(movies)
          case Some(i) =>
            r == Ok(200, Merge(old(movies)[i], p)) && movies == old(movies)[i := Merge(old(movies)[i], p)]
      ensures AllConform(old(movies), isUrl) ==> AllConform(movies, isUrl)
      ensures UniqueIds(old(movies)) ==> UniqueIds(movies)
    {
      match ValidatePartialMovie(body, isUrl)
      case Failure(e) =>
        r := Rejected(400, e);
      case Success(p) =>
        match FindIndex(movies, id)
        case None =>
          r := NotFound(400, NotFoundMessage);
        case Some(i) =>
          var updated := Merge(movies[i], p);
          MergeKeepsConformance(movies[i], p, isUrl);
          movies := movies[i := updated];
          r := Ok(200, updated);
    }
  }

  /* ---------------------------------------------------------------------
     Properties of the store operations
     --------------------------------------------------------------------- */

  /** Removing one element keeps the schema invariant and unique ids, and keeps the others in order. */
  lemma RemoveKeepsInvariants(ms: seq<Movie>, i: nat, isUrl: string -> bool)
    requires i < |ms|
    ensures |ms[..i] + ms[i + 1..]| == |ms| - 1
    ensures AllConform(ms, isUrl) ==> AllConform(ms[..i] + ms[i + 1..], isUrl)
    ensures UniqueIds(ms) ==> UniqueIds(ms[..i] + ms[i + 1..])
    ensures forall k :: 0 <= k < |ms| - 1 ==> (ms[..i] + ms[i + 1..])[k] == if k < i then ms[k] else ms[k + 1]
  {
  }

  /** A merge takes every field the patch carries and keeps every field it leaves out. */
  lemma MergeFields(m: Movie, p: MoviePatch)
    ensures p.title.Some? ==> Merge(m, p).title == p.title.value
    ensures p.title.None? ==> Merge(m, p).title == m.title
    ensures p.year.Some? ==> Merge(m, p).year == p.year.value
    ensures p.year.None? ==> Merge(m, p).year == m.year
    ensures p.duration.Some? ==> Merge(m, p).duration == p.duration.value
    ensures p.duration.None? ==> Merge(m, p).duration == m.duration
    ensures p.rate.Some? ==> Merge(m, p).rate == p.rate.value
    ensures p.rate.None? ==> Merge(m, p).rate == m.rate
    ensures p.poster.Some? ==> Merge(m, p).poster == p.poster.value
    ensures p.poster.None? ==> Merge(m, p).poster == m.poster
    ensures p.genre.Some? ==> Merge(m, p).genre == p.genre.value
    ensures p.genre.None? ==> Merge(m, p).genre == m.genre
  {
  }

  /** Merging a patch whose present fields are valid into a valid movie gives a valid movie. */
  lemma MergeKeepsConformance(m: Movie, p: MoviePatch, isUrl: string -> bool)
    ensures Conforms(m, isUrl) && PatchOk(p, isUrl) ==> Conforms(Merge(m, p), isUrl)
  {
  }

  /** Applying the same patch twice is the same as applying it once, and a
      second patch overrides the first field by field. */
  lemma MergeTwice(m: Movie, p: MoviePatch, q: MoviePatch)
    ensures Merge(Merge(m, p), p) == Merge(m, p)
    ensures q.title.Some? && q.year.Some? && q.duration.Some? && q.rate.Some? && q.poster.Some? && q.genre.Some?
            ==> Merge(Merge(m, p), q) == Merge(m, q)
  {
  }

  /** Filtering distributes over concatenation, so the result keeps the
      original relative order. */
  lemma {:induction false} WithGenreAppend(a: seq<Movie>, b: seq<Movie>, genre: string)
    ensures WithGenre(a + b, genre) == WithGenre(a, genre) + WithGenre(b, genre)
  {
    if a == [] {
      assert a + b == b;
    } else {
      assert (a + b)[1..] == a[1..] + b;
      WithGenreAppend(a[1..], b, genre);
    }
  }

  /** A list whose every movie matches is returned whole; one where none matches gives []. */
  lemma {:induction false} WithGenreExtremes(ms: seq<Movie>, genre: string)
    ensures (forall k :: 0 <= k < |ms| ==> HasGenre(ms[k], genre)) ==> WithGenre(ms, genre) == ms
    ensures (forall k :: 0 <= k < |ms| ==> !HasGenre(ms[k], genre)) ==> WithGenre(ms, genre) == []
  {
    if ms != [] {
      WithGenreExtremes(ms[1..], genre);
      if forall k :: 0 <= k < |ms| ==> HasGenre(ms[k], genre) {
        assert forall k :: 0 <= k < |ms[1..]| ==> HasGenre(ms[1..][k], genre) by {
          forall k | 0 <= k < |ms[1..]| ensures HasGenre(ms[1..][k], genre) {
            assert ms[1..][k] == ms[k + 1];
          }
        }
        assert [ms[0]] + ms[1..] == ms;
      }
      if forall k :: 0 <= k < |ms| ==> !HasGenre(ms[k], genre) {
        assert forall k :: 0 <= k < |ms[1..]| ==> !HasGenre(ms[1..][k], genre) by {
          forall k | 0 <= k < |ms[1..]| ensures !HasGenre(ms[1..][k], genre) {
            assert ms[1..][k] == ms[k + 1];
          }
        }
      }
    }
  }

  /** Lower-casing twice is lower-casing once. */
  lemma LowerCaseIdempotent(s: string)
    ensures LowerCase(LowerCase(s)) == LowerCase(s)
  {
  }

  /** A movie matches a genre it lists verbatim, and matches a filter value
      exactly when it matches that value lower-cased; so `genre=action`
      selects a movie listing "Action". */
  lemma HasGenreMatches(m: Movie, genre: string)
    ensures (exists k :: 0 <= k < |m.genre| && m.genre[k] == genre) ==> HasGenre(m, genre)
    ensures HasGenre(m, genre) <==> HasGenre(m, LowerCase(genre))
    ensures "Action" in m.genre ==> HasGenre(m, "action")
  {
    LowerCaseIdempotent(genre);
    assert LowerCase("Action") == "action";
    assert LowerCase("action") == "action";
    if "Action" in m.genre {
      var k :| 0 <= k < |m.genre| && m.genre[k] == "Action";
      assert LowerCase(m.genre[k]) == LowerCase("action");
    }
  }

  /** The genre filter ignores letter case on both sides. */
  lemma HasGenreIgnoresCase(m: Movie, genre: string, other: string)
    requires LowerCase(genre) == LowerCase(other)
    ensures HasGenre(m, genre) <==> HasGenre(m, other)
  {
  }

  /** After a create with an id no stored movie has, a lookup of that id finds the new movie. */
  lemma FindAfterCreate(ms: seq<Movie>, m: Movie)
    requires forall j :: 0 <= j < |ms| ==> ms[j].id != m.id
    ensures FindIndex(ms + [m], m.id) == Some(|ms|)
  {
    assert (ms + [m])[|ms|].id == m.id;
  }

  /** Lookups of other ids are not affected by appending a movie. */
  lemma {:induction false} FindAfterAppend(ms: seq<Movie>, m: Movie, id: string)
    requires id != m.id
    ensures FindIndex(ms + [m], id) == FindIndex(ms, id)
  {
    if ms != [] {
      assert (ms + [m])[1..] == ms[1..] + [m];
      FindAfterAppend(ms[1..], m, id);
    }
  }

  /** Create, then delete the created id: the store is back where it started,
      provided the new id was fresh. */
  lemma CreateThenDelete(ms: seq<Movie>, m: Movie)
    requires forall j :: 0 <= j < |ms| ==> ms[j].id != m.id
    ensures var after := ms + [m];
            FindIndex(after, m.id) == Some(|ms|) && after[..|ms|] + after[|ms| + 1..] == ms
  {
    FindAfterCreate(ms, m);
    var after := ms + [m];
    assert after[..|ms|] == ms;
    assert after[|ms| + 1..] == [];
  }

  /** With unique ids, a delete removes the only movie with that id, so a later lookup misses. */
  lemma FindAfterDelete(ms: seq<Movie>, i: nat)
    requires UniqueIds(ms) && i < |ms|
    ensures FindIndex(ms[..i] + ms[i + 1..], ms[i].id).None?
  {
  }

  /** A PATCH whose body is `{ rate: 9 }` changes the rate of the movie and nothing else. */
  lemma PatchRateOnly(m: Movie, isUrl: string -> bool)
    ensures ValidatePartialMovie(Obj(map["rate" := Num(9.0)]), isUrl).Success?
    ensures Merge(m, ValidatePartialMovie(Obj(map["rate" := Num(9.0)]), isUrl).value) == m.(rate := 9.0)
  {
  }
}
